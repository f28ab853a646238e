/** What one AMR leg negotiated and when two legs can be forwarded: `amr_forward/params.rs`. */
module Params {
  import opened Wrappers
  import opened Bits
  import opened Amr
  import opened ModeMask
  import opened Text

  datatype Reason =
    | Disabled | Outbound | CarrierNotAmr | ClientNotAmr | FlavourDiffers | ModeSet
    | Feature | Ptime | Dtmf | AckTimeout | ReinviteFailed

  datatype Result<+T> = Ok(value: T) | Err(reason: Reason)

  datatype ModeSetPolicy = Strict | Relax | RelaxDrop

  datatype AmrLegParams = AmrLegParams(
    flavour: AmrKind, octetAligned: bool, modeSet: Option<Mask>, framesPerPacket: nat, maxFramesPerPacket: nat,
    crc: bool, robustSorting: bool, interleaving: bool, redundancy: bool,
    payloadType: byte, dtmfPayloadType: Option<byte>, policy: ModeSetPolicy)

  datatype SdpLeg = SdpLeg(
    flavour: AmrKind, fmtp: string, payloadType: byte, dtmfPayloadType: Option<byte>,
    ptimeMs: Option<nat>, maxptimeMs: Option<nat>)

  const FRAME_MS: nat := 20

  function ModeCount(flavour: AmrKind): nat { if flavour == Nb then 8 else 9 }

  function AllModes(flavour: AmrKind): Mask { if flavour == Nb then 0x00ff else 0x01ff }

  /** `(ms / 20).clamp(1, 255)`. */
  function FramesFor(ms: nat): nat {
    var n := ms / FRAME_MS;
    if n < 1 then 1 else if n > 255 then 255 else n
  }

  // ----- what a mode-set says -------------------------------------------

  /** The numbers a comma-separated list names, `None` for an item that is not one. */
  function ListItems(value: string): (r: seq<Option<nat>>)
    ensures r != []
  {
    var parts := Split(value, ',');
    seq(|parts|, i requires 0 <= i < |parts| => ParseUnsigned(Trim(parts[i]), U32_MAX))
  }

  predicate Names(items: seq<Option<nat>>, m: byte) { Some(m as nat) in items }

  /** `mask` is the set of modes the items name. */
  ghost predicate IsModeSet(mask: Mask, items: seq<Option<nat>>) {
    forall m :: Allows(mask, m) <==> Names(items, m)
  }

  lemma {:induction false} ModeByte(n: nat, m: byte)
    requires n < 16
    ensures n as byte < 16 && (n as byte == m <==> n == m as nat)
  {
    assert (n as byte) as nat == n;
  }

  /** The mask a list of modes adds up to. */
  function MaskOf(items: seq<Option<nat>>): Mask {
    if items == [] then 0 as Mask
    else match items[|items| - 1]
         case None => MaskOf(items[..|items| - 1])
         case Some(n) => AddedTo(MaskOf(items[..|items| - 1]), n)
  }

  function AddedTo(mask: Mask, n: nat): Mask { if n < 16 then mask | ModeBit(n as byte) else mask }

  predicate ModeItems(flavour: AmrKind, items: seq<Option<nat>>) {
    forall i | 0 <= i < |items| :: items[i].Some? && items[i].value < ModeCount(flavour)
  }

  lemma {:induction false} AddedMode(mask: Mask, n: nat, m: byte)
    requires n < 16
    ensures Allows(AddedTo(mask, n), m) <==> Allows(mask, m) || n == m as nat
  {
    AddMode(mask, n as byte, m);
    ModeByte(n, m);
  }

  lemma {:induction false} MaskOfMeans(items: seq<Option<nat>>, flavour: AmrKind, m: byte)
    requires ModeItems(flavour, items)
    ensures Allows(MaskOf(items), m) <==> Names(items, m)
  {
    if items != [] {
      var init, last := items[..|items| - 1], items[|items| - 1];
      MaskOfMeans(init, flavour, m);
      AddedMode(MaskOf(init), last.value, m);
      assert items == init + [last];
    } else {
      NothingAllowed(m);
    }
  }

  lemma {:induction false} NothingAllowed(m: byte)
    ensures !Allows(0, m)
  {}

  /** The mask is exactly the set of listed modes. */
  lemma {:induction false} MaskIsModeSet(items: seq<Option<nat>>, flavour: AmrKind)
    requires ModeItems(flavour, items)
    ensures IsModeSet(MaskOf(items), items)
  {
    forall m: byte
      ensures Allows(MaskOf(items), m) <==> Names(items, m)
    {
      MaskOfMeans(items, flavour, m);
    }
  }

  lemma {:induction false} MaskNotEmpty(items: seq<Option<nat>>, flavour: AmrKind)
    requires ModeItems(flavour, items) && items != []
    ensures MaskOf(items) != 0
  {
    var n := items[0].value;
    var m := n as byte;
    ModeByte(n, m);
    MaskOfMeans(items, flavour, m);
    NothingAllowed(m);
  }

  lemma {:induction false} ModeItemsSnoc(flavour: AmrKind, items: seq<Option<nat>>, item: Option<nat>)
    requires ModeItems(flavour, items) && item.Some? && item.value < ModeCount(flavour)
    ensures ModeItems(flavour, items + [item])
    ensures MaskOf(items + [item]) == AddedTo(MaskOf(items), item.value)
  {
    assert (items + [item])[..|items|] == items;
  }

  /** One item of a mode-set. */
  method ParseMode(flavour: AmrKind, item: string) returns (r: Option<nat>)
    ensures r == var n := ParseUnsigned(Trim(item), U32_MAX);
                 if n.Some? && n.value < ModeCount(flavour) then n else None
  {
    r := ParseUnsigned(Trim(item), U32_MAX);
    if r.Some? && r.value >= ModeCount(flavour) {
      r := None;
    }
  }

  lemma {:induction false} ModeItemsTake(flavour: AmrKind, items: seq<Option<nat>>, i: nat)
    requires i < |items| && ModeItems(flavour, items[..i]) && items[i].Some? && items[i].value < ModeCount(flavour)
    ensures ModeItems(flavour, items[..i + 1])
    ensures MaskOf(items[..i + 1]) == AddedTo(MaskOf(items[..i]), items[i].value)
  {
    ModeItemsSnoc(flavour, items[..i], items[i]);
    assert items[..i + 1] == items[..i] + [items[i]];
  }

  method ParseModeSet(flavour: AmrKind, value: string) returns (r: Result<Mask>)
    ensures r.Ok? <==> ModeItems(flavour, ListItems(value))
    ensures r.Ok? ==> r.value == MaskOf(ListItems(value)) && r.value != 0
    ensures r.Err? ==> r.reason == Feature
  {
    var mask: Mask := 0;
    var parts := Split(value, ',');
    ghost var items := ListItems(value);
    for i := 0 to |parts|
      invariant ModeItems(flavour, items[..i])
      invariant mask == MaskOf(items[..i])
    {
      var mode := ParseMode(flavour, parts[i]);
      assert items[i] == ParseUnsigned(Trim(parts[i]), U32_MAX);
      if mode == None {
        return Err(Feature);
      }
      ModeItemsTake(flavour, items, i);
      mask := AddedTo(mask, mode.value);
    }
    assert items[..|parts|] == items;
    MaskNotEmpty(items, flavour);
    if mask == 0 {
      return Err(Feature);
    }
    r := Ok(mask);
  }

  /** The mode-set's highest mode is the largest number the list names. */
  lemma {:induction false} HighestIsLargestListed(flavour: AmrKind, items: seq<Option<nat>>, mask: Mask)
    requires ModeItems(flavour, items) && IsModeSet(mask, items) && mask != 0
    ensures Names(items, Highest(mask))
    ensures forall i | 0 <= i < |items| :: items[i].value <= Highest(mask) as nat
  {
    var h := Highest(mask);
    HighestIsMaximum(mask, 0);
    forall i | 0 <= i < |items|
      ensures items[i].value <= h as nat
    {
      ModeByte(items[i].value, items[i].value as byte);
      assert Names(items, items[i].value as byte);
      HighestIsMaximum(mask, items[i].value as byte);
      ByteOrder(items[i].value as byte, h);
    }
  }

  lemma {:induction false} ByteOrder(a: byte, b: byte)
    ensures a <= b <==> a as nat <= b as nat
  {}

  // ----- format parameters ----------------------------------------------

  /** `key=value`, trimmed, the key in lower case; `None` for a parameter without `=`. */
  function KeyValue(param: string): Option<(string, string)> {
    match SplitOnce(Trim(param), '=')
    case None => None
    case Some((key, value)) => Some((Lower(Trim(key)), Trim(value)))
  }

  predicate HasKey(param: string, key: string) { KeyValue(param).Some? && KeyValue(param).value.0 == key }

  /** The value of the last parameter with this key. */
  function LastValue(params: seq<string>, key: string): Option<string> {
    if params == [] then None
    else if HasKey(params[|params| - 1], key) then Some(KeyValue(params[|params| - 1]).value.1)
    else LastValue(params[..|params| - 1], key)
  }

  predicate On(v: Option<string>) { v == Some("1") }

  /** A depth or a duration is in use unless it is absent or the number zero. */
  predicate InUse(v: Option<string>) { v.Some? && ParseUnsigned(v.value, U32_MAX) != Some(0) }

  /** Every mode-set parameter is a list of modes of the flavour. */
  predicate ModeSetsParse(flavour: AmrKind, params: seq<string>) {
    forall i | 0 <= i < |params| && HasKey(params[i], "mode-set") ::
      ModeItems(flavour, ListItems(KeyValue(params[i]).value.1))
  }

  function ModeSetOf(params: seq<string>): Option<Mask> {
    match LastValue(params, "mode-set") case None => None case Some(v) => Some(MaskOf(ListItems(v)))
  }

  /** What the parameters read so far amount to. */
  datatype Fmtp = Fmtp(octetAligned: bool, modeSet: Option<Mask>, crc: bool, robust: bool,
                       interleaving: bool, redundancy: bool)

  function FmtpOf(params: seq<string>): Fmtp {
    Fmtp(On(LastValue(params, "octet-align")), ModeSetOf(params), On(LastValue(params, "crc")),
         On(LastValue(params, "robust-sorting")), InUse(LastValue(params, "interleaving")),
         InUse(LastValue(params, "max-red")))
  }

  lemma {:induction false} LastValueSnoc(params: seq<string>, param: string, key: string)
    ensures LastValue(params + [param], key)
            == if HasKey(param, key) then Some(KeyValue(param).value.1) else LastValue(params, key)
  {
    assert (params + [param])[..|params|] == params;
  }

  lemma {:induction false} FmtpSnoc(params: seq<string>, param: string)
    ensures var was, now := FmtpOf(params), FmtpOf(params + [param]);
            match KeyValue(param)
            case None => now == was
            case Some((key, v)) =>
              now == if key == "octet-align" then was.(octetAligned := v == "1")
                     else if key == "mode-set" then was.(modeSet := Some(MaskOf(ListItems(v))))
                     else if key == "crc" then was.(crc := v == "1")
                     else if key == "robust-sorting" then was.(robust := v == "1")
                     else if key == "interleaving" then was.(interleaving := InUse(Some(v)))
                     else if key == "max-red" then was.(redundancy := InUse(Some(v)))
                     else was
  {
    LastValueSnoc(params, param, "octet-align");
    LastValueSnoc(params, param, "mode-set");
    LastValueSnoc(params, param, "crc");
    LastValueSnoc(params, param, "robust-sorting");
    LastValueSnoc(params, param, "interleaving");
    LastValueSnoc(params, param, "max-red");
    KeysDiffer();
  }

  lemma {:induction false} KeysDiffer()
    ensures "octet-align" != "mode-set" && "octet-align" != "crc" && "octet-align" != "robust-sorting"
    ensures "octet-align" != "interleaving" && "octet-align" != "max-red" && "mode-set" != "crc"
    ensures "mode-set" != "robust-sorting" && "mode-set" != "interleaving" && "mode-set" != "max-red"
    ensures "crc" != "robust-sorting" && "crc" != "interleaving" && "crc" != "max-red"
    ensures "robust-sorting" != "interleaving" && "robust-sorting" != "max-red" && "interleaving" != "max-red"
  {
    assert "octet-align"[0] == 'o' && "mode-set"[0] == 'm' && "crc"[0] == 'c' && "robust-sorting"[0] == 'r';
    assert "interleaving"[0] == 'i' && "max-red"[0] == 'm' && |"mode-set"| != |"max-red"|;
  }

  /** A parameter may repeat; its last occurrence counts. The leg is refused exactly when some
      mode-set is not a list of the flavour's modes. */
  method FromSdp(leg: SdpLeg) returns (r: Result<AmrLegParams>)
    ensures var params := Split(leg.fmtp, ';');
            && (r.Ok? <==> ModeSetsParse(leg.flavour, params))
            && (r.Err? ==> r.reason == Feature)
            && (r.Ok? ==> r.value == LegOf(leg, FmtpOf(params)))
  {
    var f := Fmtp(false, None, false, false, false, false);
    var params := Split(leg.fmtp, ';');
    for i := 0 to |params|
      invariant ModeSetsParse(leg.flavour, params[..i])
      invariant f == FmtpOf(params[..i])
    {
      assert params[..i + 1] == params[..i] + [params[i]];
      FmtpSnoc(params[..i], params[i]);
      var kv := KeyValue(params[i]);
      if kv == None {
        assert !HasKey(params[i], "mode-set");
        continue;
      }
      var (key, value) := kv.value;
      if key == "mode-set" {
        var mask := ParseModeSet(leg.flavour, value);
        if mask.Err? {
          assert HasKey(params[i], "mode-set");
          return Err(mask.reason);
        }
        f := f.(modeSet := Some(mask.value));
      } else {
        f := ApplyFlag(f, key, value);
      }
    }
    assert params[..|params|] == params;
    r := Ok(LegOf(leg, f));
  }

  function ApplyFlag(f: Fmtp, key: string, value: string): Fmtp {
    if key == "octet-align" then f.(octetAligned := value == "1")
    else if key == "crc" then f.(crc := value == "1")
    else if key == "robust-sorting" then f.(robust := value == "1")
    else if key == "interleaving" then f.(interleaving := InUse(Some(value)))
    else if key == "max-red" then f.(redundancy := InUse(Some(value)))
    else f
  }

  function LegOf(leg: SdpLeg, f: Fmtp): AmrLegParams {
    var frames := match leg.ptimeMs case None => 1 case Some(ms) => FramesFor(ms);
    var most := match leg.maxptimeMs case None => frames case Some(ms) => FramesFor(ms);
    AmrLegParams(leg.flavour, f.octetAligned, f.modeSet, frames, if most < frames then frames else most,
                 f.crc, f.robust, f.interleaving, f.redundancy, leg.payloadType, leg.dtmfPayloadType, Strict)
  }

  // ----- the compatibility rule -----------------------------------------

  function Modes(leg: AmrLegParams): Mask {
    match leg.modeSet case Some(m) => m case None => AllModes(leg.flavour)
  }

  predicate UsesFeature(leg: AmrLegParams) {
    leg.crc || leg.robustSorting || leg.interleaving || leg.redundancy
  }

  /** Some mode one side may send is not one the other accepts; relaxed, only the carrier's matter. */
  predicate ModesClash(c: Mask, k: Mask, relaxed: bool) { c & !k != 0 || (!relaxed && k & !c != 0) }

  function Compatible(carrier: AmrLegParams, client: AmrLegParams): Result<()> {
    if carrier.flavour != client.flavour then Err(FlavourDiffers)
    else if UsesFeature(carrier) || UsesFeature(client) then Err(Feature)
    else
      if ModesClash(Modes(carrier), Modes(client), carrier.policy != Strict) then Err(ModeSet)
      else if carrier.framesPerPacket > client.maxFramesPerPacket
              || client.framesPerPacket > carrier.maxFramesPerPacket then Err(Ptime)
      else if carrier.dtmfPayloadType.Some? != client.dtmfPayloadType.Some? then Err(Dtmf)
      else Ok(())
  }

  /** The mode clause in terms of sets: equality under a strict carrier, inclusion of the carrier's
      set in the client's under a relaxed one. */
  ghost predicate ModesFit(c: Mask, k: Mask, relaxed: bool) { if relaxed then Within(c, k) else c == k }

  lemma {:induction false} ModesClashMeans(c: Mask, k: Mask, relaxed: bool)
    ensures ModesClash(c, k, relaxed) <==> !ModesFit(c, k, relaxed)
  {
    InclusionTest(c, k);
    InclusionTest(k, c);
    MaskDetermined(c, k);
  }

  /** The rule, clause by clause. */
  lemma {:induction false} CompatibleMeans(carrier: AmrLegParams, client: AmrLegParams)
    ensures Compatible(carrier, client).Ok? <==>
              && carrier.flavour == client.flavour && !UsesFeature(carrier) && !UsesFeature(client)
              && ModesFit(Modes(carrier), Modes(client), carrier.policy != Strict)
              && carrier.framesPerPacket <= client.maxFramesPerPacket
              && client.framesPerPacket <= carrier.maxFramesPerPacket
              && (carrier.dtmfPayloadType.Some? <==> client.dtmfPayloadType.Some?)
  {
    ModesClashMeans(Modes(carrier), Modes(client), carrier.policy != Strict);
  }

  /** With both legs strict it does not matter which one is the carrier, refusal reason included. */
  lemma {:induction false} StrictIsSymmetric(a: AmrLegParams, b: AmrLegParams)
    requires a.policy == Strict && b.policy == Strict
    ensures Compatible(a, b) == Compatible(b, a)
  {}

  function WithPolicy(leg: AmrLegParams, policy: ModeSetPolicy): AmrLegParams { leg.(policy := policy) }

  /** The modes and drop flag the relay's guard is built from. */
  function ModeGuardOf(leg: AmrLegParams): Option<(Mask, bool)> {
    match leg.modeSet
    case None => None
    case Some(m) =>
      match leg.policy
      case Strict => None
      case Relax => Some((m, false))
      case RelaxDrop => Some((m, true))
  }

  /** `mask` is exactly the set of listed modes, and its highest mode the largest number listed. */
  ghost predicate Exactly(mask: Mask, flavour: AmrKind, items: seq<Option<nat>>) {
    && ModeItems(flavour, items) && IsModeSet(mask, items) && mask != 0
    && Names(items, Highest(mask))
    && forall i | 0 <= i < |items| :: items[i].value <= Highest(mask) as nat
  }

  lemma {:induction false} MaskIsExact(items: seq<Option<nat>>, flavour: AmrKind)
    requires ModeItems(flavour, items) && items != []
    ensures Exactly(MaskOf(items), flavour, items)
  {
    MaskIsModeSet(items, flavour);
    MaskNotEmpty(items, flavour);
    HighestIsLargestListed(flavour, items, MaskOf(items));
  }

  /** A guard built from parsed SDP allows exactly the modes of the last mode-set, never none. */
  lemma {:induction false} GuardOfSdp(leg: SdpLeg, policy: ModeSetPolicy)
    requires ModeSetsParse(leg.flavour, Split(leg.fmtp, ';'))
    ensures var params := Split(leg.fmtp, ';');
            var guard := ModeGuardOf(WithPolicy(LegOf(leg, FmtpOf(params)), policy));
            && (guard.Some? <==> policy != Strict && LastValue(params, "mode-set").Some?)
            && (guard.Some? ==> Exactly(guard.value.0, leg.flavour, ListItems(LastValue(params, "mode-set").value)))
            && (guard.Some? ==> (guard.value.1 <==> policy == RelaxDrop))
  {
    LastModeSet(leg.flavour, Split(leg.fmtp, ';'));
  }

  /** The last mode-set, if any, parses to exactly its modes. */
  lemma {:induction false} LastModeSet(flavour: AmrKind, params: seq<string>)
    requires ModeSetsParse(flavour, params)
    ensures LastValue(params, "mode-set").Some? ==>
              var items := ListItems(LastValue(params, "mode-set").value); Exactly(MaskOf(items), flavour, items)
  {
    if LastValue(params, "mode-set").Some? {
      var i := LastIndex(params, "mode-set");
      MaskIsExact(ListItems(LastValue(params, "mode-set").value), flavour);
    }
  }

  lemma {:induction false} LastIndex(params: seq<string>, key: string) returns (i: nat)
    requires LastValue(params, key).Some?
    ensures i < |params| && HasKey(params[i], key) && LastValue(params, key) == Some(KeyValue(params[i]).value.1)
  {
    i := |params| - 1;
    if !HasKey(params[i], key) {
      i := LastIndex(params[..i], key);
    }
  }
}
