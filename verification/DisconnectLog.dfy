/** The bounded log of disconnects kept by `pjsua-safe/src/endpoint.rs`. */
module DisconnectLog {
  import opened Wrappers

  datatype Disconnect = Disconnect(status: Option<nat>, q850: Option<nat>, responseSeen: bool)

  datatype Entry = Entry(token: nat, disconnect: Disconnect)

  const CAPACITY: nat := 64

  /** `record_in`: the oldest entry makes room. */
  function Record(log: seq<Entry>, e: Entry): seq<Entry> {
    (if |log| >= CAPACITY then log[1..] else log) + [e]
  }

  /** `status_in`: the newest entry with this token. */
  function StatusIn(log: seq<Entry>, token: nat): Option<Disconnect> {
    if log == [] then None
    else if log[|log| - 1].token == token then Some(log[|log| - 1].disconnect)
    else StatusIn(log[..|log| - 1], token)
  }

  class Log {
    var entries: seq<Entry>

    constructor ()
      ensures entries == []
    {
      entries := [];
    }

    method RecordDisconnect(token: nat, disconnect: Disconnect)
      modifies this
      ensures entries == Record(old(entries), Entry(token, disconnect))
    {
      if |entries| >= CAPACITY {
        entries := entries[1..];
      }
      entries := entries + [Entry(token, disconnect)];
    }

    /** The newest entry with this token: found at some index, with none after it. */
    method DisconnectStatus(token: nat) returns (r: Option<Disconnect>)
      ensures r == StatusIn(entries, token)
    {
      var i := |entries|;
      assert entries[..i] == entries;
      while i > 0
        invariant 0 <= i <= |entries|
        invariant StatusIn(entries, token) == StatusIn(entries[..i], token)
      {
        i := i - 1;
        assert entries[..i + 1][..i] == entries[..i];
        if entries[i].token == token {
          return Some(entries[i].disconnect);
        }
      }
      r := None;
    }
  }

  // ----- against the full history ---------------------------------------

  /** The log after every disconnect in `history` was recorded, in order. */
  function LogOf(history: seq<Entry>): seq<Entry> {
    if history == [] then [] else Record(LogOf(history[..|history| - 1]), history[|history| - 1])
  }

  function Recent(history: seq<Entry>): (r: seq<Entry>) {
    if |history| <= CAPACITY then history else history[|history| - CAPACITY..]
  }

  /** The log is the last 64 disconnects, whatever came before. */
  lemma {:induction false} LogIsRecent(history: seq<Entry>)
    ensures LogOf(history) == Recent(history)
  {
    if history != [] {
      var init, e := history[..|history| - 1], history[|history| - 1];
      LogIsRecent(init);
      RecentSnoc(init, e);
      assert history == init + [e];
    }
  }

  lemma {:induction false} RecentSnoc(history: seq<Entry>, e: Entry)
    ensures Record(Recent(history), e) == Recent(history + [e])
  {
    var k := |history|;
    if k > CAPACITY {
      assert Recent(history)[1..] == history[k - CAPACITY + 1..];
      assert (history + [e])[k + 1 - CAPACITY..] == history[k - CAPACITY + 1..] + [e];
    } else if k == CAPACITY {
      assert (history + [e])[1..] == history[1..] + [e];
    }
  }

  predicate FreshTokens(history: seq<Entry>) {
    forall i, j | 0 <= i < j < |history| :: history[i].token != history[j].token
  }

  lemma {:induction false} StatusAt(log: seq<Entry>, i: nat)
    requires i < |log| && FreshTokens(log)
    ensures StatusIn(log, log[i].token) == Some(log[i].disconnect)
  {
    if i < |log| - 1 {
      assert log[..|log| - 1][i] == log[i];
      StatusAt(log[..|log| - 1], i);
    }
  }

  lemma {:induction false} RecentAt(history: seq<Entry>, j: nat)
    requires j < |Recent(history)|
    ensures Recent(history)[j] == history[|history| - |Recent(history)| + j]
  {}

  lemma {:induction false} RecentIsFresh(history: seq<Entry>)
    requires FreshTokens(history)
    ensures FreshTokens(Recent(history))
  {}

  /** Against an unbounded map: with tokens never reused, the log answers for exactly the 64 most
      recent disconnects, each with its own record. */
  lemma {:induction false} LogAgreesWithMap(history: seq<Entry>, i: nat)
    requires FreshTokens(history) && i < |history|
    ensures StatusIn(LogOf(history), history[i].token)
            == if |history| - i <= CAPACITY then Some(history[i].disconnect) else None
  {
    LogIsRecent(history);
    if |history| - i <= CAPACITY {
      RecentIsFound(history, i);
    } else {
      OldIsGone(history, i);
    }
  }

  lemma {:induction false} RecentIsFound(history: seq<Entry>, i: nat)
    requires FreshTokens(history) && i < |history| && |history| - i <= CAPACITY
    ensures StatusIn(Recent(history), history[i].token) == Some(history[i].disconnect)
  {
    var j := i - (|history| - |Recent(history)|);
    RecentAt(history, j);
    RecentIsFresh(history);
    StatusAt(Recent(history), j);
  }

  lemma {:induction false} OldIsGone(history: seq<Entry>, i: nat)
    requires FreshTokens(history) && i < |history| && |history| - i > CAPACITY
    ensures StatusIn(Recent(history), history[i].token) == None
  {
    if StatusIn(Recent(history), history[i].token).Some? {
      var j := StatusIndex(Recent(history), history[i].token);
      RecentAt(history, j);
      assert false;
    }
  }

  /** A token never recorded is never answered for. */
  lemma {:induction false} LogInventsNothing(history: seq<Entry>, token: nat)
    requires StatusIn(LogOf(history), token).Some?
    ensures exists i | 0 <= i < |history| ::
              history[i].token == token && StatusIn(LogOf(history), token) == Some(history[i].disconnect)
  {
    LogIsRecent(history);
    var j := StatusIndex(Recent(history), token);
    RecentAt(history, j);
  }

  lemma {:induction false} StatusIndex(log: seq<Entry>, token: nat) returns (j: nat)
    requires StatusIn(log, token).Some?
    ensures j < |log| && log[j].token == token && StatusIn(log, token) == Some(log[j].disconnect)
  {
    j := |log| - 1;
    if log[j].token != token {
      j := StatusIndex(log[..j], token);
    }
  }
}
