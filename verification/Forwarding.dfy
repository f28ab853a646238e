/** From the carrier's SDP to the wire: a session forwarded under a guard built by `amr_forward/params.rs`
    and enforced by `amr_forward/relay.rs`. */
module Forwarding {
  import opened Wrappers
  import opened Amr
  import opened Repacking
  import opened Rtp
  import opened Text
  import P = Params
  import opened Relay
  import opened ForwardSession

  /** The guard a carrier leg's SDP and policy ask for. */
  function GuardFor(leg: P.SdpLeg, policy: P.ModeSetPolicy): (r: Option<ModeGuard>)
    requires P.ModeSetsParse(leg.flavour, Split(leg.fmtp, ';'))
    ensures r.Some? <==> policy != P.Strict && P.LastValue(Split(leg.fmtp, ';'), "mode-set").Some?
    ensures r.Some? ==> r.value.modes != 0 && (r.value.drop <==> policy == P.RelaxDrop)
  {
    P.GuardOfSdp(leg, policy);
    match P.ModeGuardOf(P.WithPolicy(P.LegOf(leg, P.FmtpOf(Split(leg.fmtp, ';'))), policy))
    case None => None
    case Some((modes, drop)) => Some(ModeGuard(modes, drop))
  }

  /** Every packet went out under the session's guard. */
  predicate OneGuard(s: Session, kind: AmrKind, guard: Option<ModeGuard>) {
    && s.kind == kind && s.guard == guard
    && forall i | 0 <= i < |s.sent| :: s.sent[i].dir.kind == kind && s.sent[i].dir.guard == guard
  }

  lemma {:induction false} GuardIsFixed(s: Session, es: seq<Event>, kind: AmrKind, guard: Option<ModeGuard>)
    requires Usable(s) && OneGuard(s, kind, guard)
    ensures OneGuard(Steps(s, es), kind, guard)
    decreases |es|
  {
    if es != [] { GuardIsFixed(Step(s, es[0]), es[1..], kind, guard); }
  }

  /** What the SDP's list of modes means for a packet that was sent. */
  ghost predicate Honoured(x: Sent, items: seq<Option<nat>>) {
    Audio(x.dir, x.d) ==>
      ParsePacket(x.out).Some? &&
      if x.dir.fromCarrier then Payload(x.out) != [] ==> P.Names(items, CmrOf(Payload(x.out)).value)
      else var modes := ListedModes(Payload(x.out), x.dir.kind, x.dir.dst.octetAligned);
           x.dir.guard.Some? && x.dir.guard.value.drop && modes.Some? ==>
             forall i | 0 <= i < |modes.value| :: P.Names(items, modes.value[i])
  }

  /** With a relaxed carrier whose SDP lists modes, over every call: each audio packet sent to the client
      requests a mode the carrier listed, and under `relax_drop` each audio packet sent to the carrier
      whose table of contents is whole holds only modes the carrier listed. */
  lemma {:induction false} ListedModesAreHonoured(leg: P.SdpLeg, policy: P.ModeSetPolicy, w: Setup, es: seq<Event>)
    requires P.ModeSetsParse(leg.flavour, Split(leg.fmtp, ';')) && policy != P.Strict
    requires P.LastValue(Split(leg.fmtp, ';'), "mode-set").Some?
    requires w.kind == leg.flavour && w.guard == GuardFor(leg, policy)
    requires ValidSetup(w) && forall e | e in es :: ValidEvent(e)
    ensures var items := P.ListItems(P.LastValue(Split(leg.fmtp, ';'), "mode-set").value);
            var s := Steps(Start(w), es);
            forall i | 0 <= i < |s.sent| :: Honoured(s.sent[i], items)
  {
    var items := P.ListItems(P.LastValue(Split(leg.fmtp, ';'), "mode-set").value);
    P.GuardOfSdp(leg, policy);
    EveryCallIsSafe(w, es);
    GuardIsFixed(Start(w), es, w.kind, w.guard);
  }
}
