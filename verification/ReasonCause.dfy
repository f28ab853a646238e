/** The Q.850 cause of a `Reason` header: `parse_q850_cause` of `pjsua-safe/src/endpoint.rs`, against
    the headers a peer may render. */
module ReasonCause {
  import opened Wrappers
  import opened Text
  import opened ReasonHeader

  const MAX_CAUSE: nat := 127

  // ----- the parser -----------------------------------------------------

  /** The cause one parameter gives. */
  function CauseOf(param: string): (r: Option<nat>)
    ensures r.Some? ==> r.value <= MAX_CAUSE
  {
    match SplitOnce(param, '=')
    case None => None
    case Some((key, val)) =>
      if !EqIgnoreCase(Trim(key), "cause") then None
      else
        var cause := ParseUnsigned(Trim(val), U16_MAX);
        if cause.Some? && cause.value <= MAX_CAUSE then cause else None
  }

  /** `find_map`. */
  function FirstSome(items: seq<string>, f: string -> Option<nat>): Option<nat> {
    if items == [] then None
    else if f(items[0]).Some? then f(items[0])
    else FirstSome(items[1..], f)
  }

  predicate IsQ850(protocol: string) { EqIgnoreCase(Trim(protocol), "Q.850") }

  function ParseQ850Reason(reason: string): Option<nat> {
    var params := Pieces(START, reason, ';');
    if IsQ850(params[0]) then FirstSome(params[1..], CauseOf) else None
  }

  function ParseQ850Cause(value: string): Option<nat> {
    FirstSome(Pieces(START, value, ','), ParseQ850Reason)
  }

  // ----- rendering ------------------------------------------------------

  /** A parameter of a reason: a cause, one that is not a number, another token, a quoted text, or a word
      without a value. A cause may be written with spaces around it, a plus sign and leading zeros. */
  datatype Param =
    | Cause(key: string, lead: string, plus: bool, zeros: nat, cause: nat, trail: string)
    | BadCause(key: string, value: string)
    | Token(key: string, value: string)
    | Quoted(key: string, text: string)
    | Word(text: string)

  datatype Reason = Reason(protocol: string, params: seq<Param>)

  function Decimal(n: nat): (r: string)
    ensures r != [] && AllDigits(r)
  {
    var d := [(n % 10 + '0' as int) as char];
    if n < 10 then d else Decimal(n / 10) + d
  }

  /** Quotes and backslashes are escaped by a backslash. */
  function Escape(text: string): string {
    if text == [] then []
    else (if text[0] == '"' || text[0] == '\\' then ['\\', text[0]] else [text[0]]) + Escape(text[1..])
  }

  function Zeros(n: nat): (r: string)
    ensures AllDigits(r)
  {
    if n == 0 then [] else ['0'] + Zeros(n - 1)
  }

  function Number(plus: bool, zeros: nat, n: nat): (r: string)
    ensures r != []
  {
    (if plus then "+" else []) + (Zeros(zeros) + Decimal(n))
  }

  function RenderParam(p: Param): string {
    match p
    case Cause(key, lead, plus, zeros, cause, trail) => key + "=" + (lead + Number(plus, zeros, cause) + trail)
    case BadCause(key, value) => key + "=" + value
    case Token(key, value) => key + "=" + value
    case Quoted(key, text) => key + "=\"" + Escape(text) + "\""
    case Word(text) => text
  }

  function RenderParams(ps: seq<Param>): seq<string> { seq(|ps|, i requires 0 <= i < |ps| => RenderParam(ps[i])) }

  function RenderReason(r: Reason): string { Join([r.protocol] + RenderParams(r.params), ';') }

  function RenderReasons(rs: seq<Reason>): seq<string> {
    seq(|rs|, i requires 0 <= i < |rs| => RenderReason(rs[i]))
  }

  function RenderHeader(rs: seq<Reason>): string
    requires rs != []
  {
    Join(RenderReasons(rs), ',')
  }

  /** No quote and no separator. */
  predicate Plain(s: string) { '"' !in s && ',' !in s && ';' !in s }

  predicate PlainKey(key: string) { Plain(key) && '=' !in key }

  predicate IsCause(key: string) { EqIgnoreCase(Trim(key), "cause") }

  predicate Spaces(s: string) { forall i | 0 <= i < |s| :: IsSpace(s[i]) }

  /** Digits, with or without a plus sign. */
  predicate IsNumber(s: string) {
    var digits := if s != [] && s[0] == '+' then s[1..] else s;
    digits != [] && AllDigits(digits)
  }

  predicate RenderableParam(p: Param) {
    match p
    case Cause(key, lead, _, _, _, trail) => PlainKey(key) && IsCause(key) && Spaces(lead) && Spaces(trail)
    case BadCause(key, value) => PlainKey(key) && IsCause(key) && Plain(value) && !IsNumber(Trim(value))
    case Token(key, value) => PlainKey(key) && !IsCause(key) && Plain(value)
    case Quoted(key, _) => PlainKey(key)
    case Word(text) => PlainKey(text)
  }

  predicate Renderable(r: Reason) {
    && Plain(r.protocol)
    && forall i | 0 <= i < |r.params| :: RenderableParam(r.params[i])
  }

  /** The first cause of at most 127 among the parameters. */
  function FirstCause(ps: seq<Param>): Option<nat> {
    if ps == [] then None
    else if ps[0].Cause? && ps[0].cause <= MAX_CAUSE then Some(ps[0].cause)
    else FirstCause(ps[1..])
  }

  /** The first cause of at most 127 of a Q.850 reason. */
  function FirstQ850Cause(rs: seq<Reason>): Option<nat> {
    if rs == [] then None
    else if IsQ850(rs[0].protocol) && FirstCause(rs[0].params).Some? then FirstCause(rs[0].params)
    else FirstQ850Cause(rs[1..])
  }

  // ----- rendered text under the scanner --------------------------------

  lemma {:induction false} WholeAppend(st: Scan, a: string, b: string, sep: char)
    requires Whole(st, a, sep) && Whole(StateAfter(st, a), b, sep)
    ensures Whole(st, a + b, sep) && StateAfter(st, a + b) == StateAfter(StateAfter(st, a), b)
    decreases |a|
  {
    if a == [] {
      assert a + b == b;
    } else {
      WholeAppend(Advance(st, a[0]), a[1..], b, sep);
      assert (a + b)[0] == a[0] && (a + b)[1..] == a[1..] + b;
    }
  }

  /** Text without quotes or separators is read whole and changes nothing. */
  lemma {:induction false} PlainScan(s: string, sep: char)
    requires '"' !in s && sep !in s
    ensures Whole(START, s, sep) && StateAfter(START, s) == START
  {
    if s == [] {
    } else {
      assert s[0] in s && forall c | c in s[1..] :: c in s;
      PlainScan(s[1..], sep);
    }
  }

  /** Inside quotes, escaped text is read whole and leaves the scanner inside the quotes. */
  lemma {:induction false} EscapedScan(text: string, sep: char)
    ensures Whole(QUOTED, Escape(text), sep) && StateAfter(QUOTED, Escape(text)) == QUOTED
  {
    if text == [] {
    } else {
      EscapedScan(text[1..], sep);
      var rest, s := Escape(text[1..]), Escape(text);
      if text[0] == '"' || text[0] == '\\' {
        assert s[0] == '\\' && s[1..][0] == text[0] && s[1..][1..] == rest;
      } else {
        assert s[0] == text[0] && s[1..] == rest;
      }
    }
  }

  lemma {:induction false} QuoteScan(sep: char)
    ensures Whole(QUOTED, "\"", sep) && StateAfter(QUOTED, "\"") == START
    ensures Whole(START, "\"", sep) && StateAfter(START, "\"") == QUOTED
  {
    assert "\""[1..] == [];
  }

  lemma {:induction false} DigitsArePlain(s: string)
    requires AllDigits(s)
    ensures Plain(s) && '+' !in s
  {
    forall c | c in s ensures IsDigit(c) {
      var i :| 0 <= i < |s| && s[i] == c;
    }
  }

  lemma {:induction false} SpacesArePlain(s: string)
    requires Spaces(s)
    ensures Plain(s)
  {}

  lemma {:induction false} PlainAppend(a: string, b: string)
    requires Plain(a) && Plain(b)
    ensures Plain(a + b)
  {}

  lemma {:induction false} NumberIsPlain(plus: bool, zeros: nat, n: nat)
    ensures Plain(Number(plus, zeros, n))
  {
    DigitsArePlain(Zeros(zeros));
    DigitsArePlain(Decimal(n));
    PlainAppend(Zeros(zeros), Decimal(n));
    PlainAppend(if plus then "+" else [], Zeros(zeros) + Decimal(n));
  }

  lemma {:induction false} CauseIsPlain(p: Param)
    requires RenderableParam(p) && p.Cause?
    ensures Plain(p.lead + Number(p.plus, p.zeros, p.cause) + p.trail)
  {
    SpacesArePlain(p.lead);
    SpacesArePlain(p.trail);
    NumberIsPlain(p.plus, p.zeros, p.cause);
    PlainAppend(p.lead, Number(p.plus, p.zeros, p.cause));
    PlainAppend(p.lead + Number(p.plus, p.zeros, p.cause), p.trail);
  }

  lemma {:induction false} PairScan(key: string, value: string, sep: char)
    requires Plain(key) && Plain(value) && (sep == ',' || sep == ';')
    ensures var s := key + "=" + value; Whole(START, s, sep) && StateAfter(START, s) == START
  {
    PlainAppend(key, "=");
    PlainAppend(key + "=", value);
    PlainScan(key + "=" + value, sep);
  }

  lemma {:induction false} QuotedScan(key: string, text: string, sep: char)
    requires Plain(key) && (sep == ',' || sep == ';')
    ensures var s := RenderParam(Quoted(key, text)); Whole(START, s, sep) && StateAfter(START, s) == START
  {
    var opening := key + "=";
    PlainScan(opening, sep);
    QuoteScan(sep);
    WholeAppend(START, opening, "\"", sep);
    EscapedScan(text, sep);
    var s := opening + "\"" + Escape(text);
    WholeAppend(START, opening + "\"", Escape(text), sep);
    WholeAppend(START, s, "\"", sep);
    assert RenderParam(Quoted(key, text)) == s + "\"" by { assert "=\"" == "=" + "\""; }
  }

  lemma {:induction false} ParamScan(p: Param, sep: char)
    requires RenderableParam(p) && (sep == ',' || sep == ';')
    ensures Whole(START, RenderParam(p), sep) && StateAfter(START, RenderParam(p)) == START
  {
    match p {
      case Cause(key, lead, plus, zeros, cause, trail) =>
        CauseIsPlain(p);
        PairScan(key, lead + Number(plus, zeros, cause) + trail, sep);
      case BadCause(key, value) => PairScan(key, value, sep);
      case Token(key, value) => PairScan(key, value, sep);
      case Quoted(key, text) => QuotedScan(key, text, sep);
      case Word(text) => PlainScan(text, sep);
    }
  }

  /** The rendered parameters split at semicolons into themselves. */
  lemma {:induction false} ParamsClean(head: string, ps: seq<Param>)
    requires Whole(START, head, ';') && StateAfter(START, head) == START
    requires forall i | 0 <= i < |ps| :: RenderableParam(ps[i])
    ensures Clean([head] + RenderParams(ps), ';')
    decreases |ps|
  {
    var parts := [head] + RenderParams(ps);
    if ps == [] {
    } else {
      ParamScan(ps[0], ';');
      ParamsClean(RenderParam(ps[0]), ps[1..]);
      assert parts[1..] == [RenderParam(ps[0])] + RenderParams(ps[1..]);
    }
  }

  /** The same text is read whole when splitting at commas. */
  lemma {:induction false} ReasonScan(head: string, ps: seq<Param>)
    requires Whole(START, head, ',') && StateAfter(START, head) == START
    requires forall i | 0 <= i < |ps| :: RenderableParam(ps[i])
    ensures var s := Join([head] + RenderParams(ps), ';');
            Whole(START, s, ',') && StateAfter(START, s) == START
    decreases |ps|
  {
    var parts := [head] + RenderParams(ps);
    if ps == [] {
    } else {
      ParamScan(ps[0], ',');
      ReasonScan(RenderParam(ps[0]), ps[1..]);
      assert parts[1..] == [RenderParam(ps[0])] + RenderParams(ps[1..]);
      var tail := Join(parts[1..], ';');
      PlainScan(";", ',');
      WholeAppend(START, head, ";", ',');
      WholeAppend(START, head + ";", tail, ',');
    }
  }

  lemma {:induction false} ReasonsClean(rs: seq<Reason>)
    requires rs != [] && forall i | 0 <= i < |rs| :: Renderable(rs[i])
    ensures Clean(RenderReasons(rs), ',')
  {
    PlainScan(rs[0].protocol, ',');
    ReasonScan(rs[0].protocol, rs[0].params);
    if |rs| > 1 {
      ReasonsClean(rs[1..]);
      assert RenderReasons(rs)[1..] == RenderReasons(rs[1..]);
    }
  }

  // ----- rendered parameters --------------------------------------------

  lemma {:induction false} DecimalInverse(n: nat)
    ensures DecimalValue(Decimal(n)) == n
  {
    var s, d := Decimal(n), [(n % 10 + '0' as int) as char];
    assert s[|s| - 1] == d[0];
    if n < 10 {
      assert s[..|s| - 1] == [];
    } else {
      DecimalInverse(n / 10);
      assert s[..|s| - 1] == Decimal(n / 10);
    }
  }

  lemma {:induction false} TrimSpaces(lead: string, s: string, trail: string)
    requires Spaces(lead) && Spaces(trail) && s != [] && !IsSpace(s[0]) && !IsSpace(s[|s| - 1])
    ensures Trim(lead + s + trail) == s
  {
    TrimLead(lead, s + trail);
    assert lead + (s + trail) == lead + s + trail;
    TrimTrail(s, trail);
  }

  lemma {:induction false} TrimLead(lead: string, s: string)
    requires Spaces(lead) && s != [] && !IsSpace(s[0])
    ensures TrimStart(lead + s) == s
  {
    if lead == [] {
      assert lead + s == s;
    } else {
      assert (lead + s)[1..] == lead[1..] + s;
      TrimLead(lead[1..], s);
    }
  }

  lemma {:induction false} TrimTrail(s: string, trail: string)
    requires Spaces(trail) && s != [] && !IsSpace(s[|s| - 1])
    ensures TrimEnd(s + trail) == s
  {
    if trail == [] {
      assert s + trail == s;
    } else {
      var init := trail[..|trail| - 1];
      assert (s + trail)[..|s + trail| - 1] == s + init;
      TrimTrail(s, init);
    }
  }

  lemma {:induction false} SplitOnceAt(key: string, val: string)
    requires '=' !in key
    ensures SplitOnce(key + "=" + val, '=') == Some((key, val))
  {
    var s := key + "=" + val;
    if key == [] {
      assert s[0] == '=' && s[1..] == val;
    } else {
      assert s[0] == key[0] && s[1..] == key[1..] + "=" + val;
      SplitOnceAt(key[1..], val);
      assert [key[0]] + key[1..] == key;
    }
  }

  lemma {:induction false} NoSplitOnce(s: string, sep: char)
    requires sep !in s
    ensures SplitOnce(s, sep) == None
  {
    if s != [] { NoSplitOnce(s[1..], sep); }
  }

  lemma {:induction false} OneMoreZero(zeros: nat, s: string)
    requires zeros > 0
    ensures Zeros(zeros) + s == ['0'] + (Zeros(zeros - 1) + s)
  {}

  /** `z` writes the same number as `s`. */
  predicate SameNumber(z: string, s: string) {
    AllDigits(z) && AllDigits(s) && DecimalValue(z) == DecimalValue(s)
  }

  lemma {:induction false} LeadingZeros(zeros: nat, s: string)
    requires AllDigits(s)
    ensures SameNumber(Zeros(zeros) + s, s)
    decreases zeros
  {
    if zeros == 0 {
      assert Zeros(0) + s == s;
    } else {
      LeadingZeros(zeros - 1, s);
      OneMoreZero(zeros, s);
      ZeroInFront(Zeros(zeros - 1) + s);
    }
  }

  lemma {:induction false} ZeroInFront(s: string)
    requires AllDigits(s)
    ensures SameNumber(['0'] + s, s)
  {
    var z := ['0'] + s;
    if s == [] {
      assert z[..|z| - 1] == [];
    } else {
      ZeroInFront(s[..|s| - 1]);
      assert z[..|z| - 1] == ['0'] + s[..|s| - 1];
    }
  }

  lemma {:induction false} ParseNumber(plus: bool, zeros: nat, n: nat)
    ensures ParseUnsigned(Number(plus, zeros, n), U16_MAX) == if n <= U16_MAX then Some(n) else None
  {
    var digits, s := Zeros(zeros) + Decimal(n), Number(plus, zeros, n);
    LeadingZeros(zeros, Decimal(n));
    DecimalInverse(n);
    DigitsArePlain(digits);
    if plus {
      assert s[0] == '+' && s[1..] == digits;
    } else {
      assert s == digits;
    }
  }

  lemma {:induction false} NumberEnds(plus: bool, zeros: nat, n: nat)
    ensures var s := Number(plus, zeros, n); !IsSpace(s[0]) && !IsSpace(s[|s| - 1])
  {
    var s := Number(plus, zeros, n);
    LeadingZeros(zeros, Decimal(n));
    assert s[|s| - 1] == Decimal(n)[|Decimal(n)| - 1];
    if !plus { assert s[0] == (Zeros(zeros) + Decimal(n))[0]; }
  }

  lemma {:induction false} CauseOfNumber(p: Param)
    requires RenderableParam(p) && p.Cause?
    ensures CauseOf(RenderParam(p)) == if p.cause <= MAX_CAUSE then Some(p.cause) else None
  {
    var number := Number(p.plus, p.zeros, p.cause);
    SplitOnceAt(p.key, p.lead + number + p.trail);
    NumberEnds(p.plus, p.zeros, p.cause);
    TrimSpaces(p.lead, number, p.trail);
    ParseNumber(p.plus, p.zeros, p.cause);
  }

  /** Quotes are no number. */
  lemma {:induction false} CauseOfQuoted(key: string, text: string)
    requires PlainKey(key)
    ensures CauseOf(RenderParam(Quoted(key, text))) == None
  {
    var val := "\"" + Escape(text) + "\"";
    assert RenderParam(Quoted(key, text)) == key + "=" + val;
    SplitOnceAt(key, val);
    TrimSpaces([], val, []);
    assert [] + val + [] == val;
    assert val[0] == '"';
  }

  lemma {:induction false} CauseOfParam(p: Param)
    requires RenderableParam(p)
    ensures CauseOf(RenderParam(p)) == FirstCause([p])
  {
    match p {
      case Cause(_, _, _, _, _, _) => CauseOfNumber(p);
      case BadCause(key, value) => SplitOnceAt(key, value);
      case Token(key, value) => SplitOnceAt(key, value);
      case Quoted(key, text) => CauseOfQuoted(key, text);
      case Word(text) => NoSplitOnce(text, '=');
    }
  }

  lemma {:induction false} FirstSomeOfParams(ps: seq<Param>)
    requires forall i | 0 <= i < |ps| :: RenderableParam(ps[i])
    ensures FirstSome(RenderParams(ps), CauseOf) == FirstCause(ps)
  {
    if ps == [] {
    } else {
      CauseOfParam(ps[0]);
      FirstSomeOfParams(ps[1..]);
      assert RenderParams(ps)[1..] == RenderParams(ps[1..]);
    }
  }

  lemma {:induction false} ReasonOfRendering(r: Reason)
    requires Renderable(r)
    ensures ParseQ850Reason(RenderReason(r)) == if IsQ850(r.protocol) then FirstCause(r.params) else None
  {
    var parts := [r.protocol] + RenderParams(r.params);
    PlainScan(r.protocol, ';');
    ParamsClean(r.protocol, r.params);
    SplitOfJoin(parts, ';');
    FirstSomeOfParams(r.params);
    assert parts[1..] == RenderParams(r.params);
  }

  lemma {:induction false} FirstSomeOfReasons(rs: seq<Reason>)
    requires forall i | 0 <= i < |rs| :: Renderable(rs[i])
    ensures FirstSome(RenderReasons(rs), ParseQ850Reason) == FirstQ850Cause(rs)
  {
    if rs == [] {
    } else {
      ReasonOfRendering(rs[0]);
      FirstSomeOfReasons(rs[1..]);
      assert RenderReasons(rs)[1..] == RenderReasons(rs[1..]);
    }
  }

  /** Whatever the quoted texts, malformed causes and other parameters hold, a rendered header parses to
      the first cause of at most 127 of a Q.850 reason. */
  lemma {:induction false} CauseOfRendering(rs: seq<Reason>)
    requires rs != [] && forall i | 0 <= i < |rs| :: Renderable(rs[i])
    ensures ParseQ850Cause(RenderHeader(rs)) == FirstQ850Cause(rs)
  {
    ReasonsClean(rs);
    SplitOfJoin(RenderReasons(rs), ',');
    FirstSomeOfReasons(rs);
  }
}
