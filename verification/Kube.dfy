/** Shared vocabulary of the three controllers: API results, status conditions, and the
    library operations on condition lists. */
module Kube {

  datatype Option<+T> = None | Some(value: T)

  datatype ApiError = NotFound | AlreadyExists | Conflict | Fault

  datatype Result<+T> = Ok(value: T) | Err(error: ApiError)

  /** What becomes of one call: it works; it fails without effect; it takes effect but the answer is
      lost; a read returns the i-th logged version; a read misses an object; the operator crashes. */
  datatype Mode = Normal | Fails | AnswerLost | Stale(i: nat) | Missing | Crash

  /** The phase strings of the API; NoPhase is the empty string of a fresh status. */
  datatype Phase = NoPhase | Pending | Failed | Running | Building | Succeeded

  datatype CondStatus = CondTrue | CondFalse | CondUnknown

  /** A status condition without its message, transition time and observed generation. */
  datatype Condition = Condition(kind: string, status: CondStatus, reason: string)

  /** meta.SetStatusCondition: replace the condition of the same type in place, else append. */
  function SetCondition(cs: seq<Condition>, c: Condition): (r: seq<Condition>)
  {
    if cs == [] then [c]
    else if cs[0].kind == c.kind then [c] + cs[1..]
    else [cs[0]] + SetCondition(cs[1..], c)
  }

  /** meta.RemoveStatusCondition: keep every condition of another type, in order. */
  function RemoveCondition(cs: seq<Condition>, kind: string): (r: seq<Condition>)
  {
    if cs == [] then []
    else if cs[0].kind == kind then RemoveCondition(cs[1..], kind)
    else [cs[0]] + RemoveCondition(cs[1..], kind)
  }

  /** The first condition of a type, if there is one. */
  function Lookup(cs: seq<Condition>, kind: string): (r: Option<Condition>)
  {
    if cs == [] then None
    else if cs[0].kind == kind then Some(cs[0])
    else Lookup(cs[1..], kind)
  }

  predicate HasKind(cs: seq<Condition>, kind: string) {
    Lookup(cs, kind).Some?
  }

  ghost predicate UniqueKinds(cs: seq<Condition>) {
    forall i, j :: 0 <= i < j < |cs| ==> cs[i].kind != cs[j].kind
  }

  lemma {:induction false} LookupMember(cs: seq<Condition>, kind: string)
    ensures HasKind(cs, kind) <==> exists i :: 0 <= i < |cs| && cs[i].kind == kind
    ensures HasKind(cs, kind) ==> Lookup(cs, kind).value in cs && Lookup(cs, kind).value.kind == kind
  {
    if cs != [] && cs[0].kind != kind {
      LookupMember(cs[1..], kind);
      if i :| 0 <= i < |cs| && cs[i].kind == kind {
        assert cs[1..][i - 1].kind == kind;
      }
    }
  }

  /** Setting a condition is a map update: its own type reads back, every other type is untouched. */
  lemma {:induction false} LookupAfterSet(cs: seq<Condition>, c: Condition, kind: string)
    ensures Lookup(SetCondition(cs, c), kind) == if kind == c.kind then Some(c) else Lookup(cs, kind)
  {
    if cs != [] && cs[0].kind != c.kind {
      LookupAfterSet(cs[1..], c, kind);
    } else if cs != [] {
      assert ([c] + cs[1..])[1..] == cs[1..];
    }
  }

  lemma {:induction false} LookupAfterRemove(cs: seq<Condition>, gone: string, kind: string)
    ensures Lookup(RemoveCondition(cs, gone), kind) == if kind == gone then None else Lookup(cs, kind)
  {
    if cs != [] {
      LookupAfterRemove(cs[1..], gone, kind);
    }
  }

  /** Members of the updated list: the new condition, and only old ones besides it. */
  lemma {:induction false} MembersAfterSet(cs: seq<Condition>, c: Condition)
    ensures c in SetCondition(cs, c)
    ensures forall x :: x in SetCondition(cs, c) ==> x == c || x in cs
    ensures UniqueKinds(cs) ==> forall x :: x in cs && x.kind != c.kind ==> x in SetCondition(cs, c)
  {
    if cs != [] && cs[0].kind != c.kind {
      MembersAfterSet(cs[1..], c);
      assert cs == [cs[0]] + cs[1..];
    } else if cs != [] {
      assert cs == [cs[0]] + cs[1..];
    }
  }

  lemma {:induction false} MembersAfterRemove(cs: seq<Condition>, kind: string)
    ensures forall x :: x in RemoveCondition(cs, kind) <==> x in cs && x.kind != kind
  {
    if cs != [] {
      MembersAfterRemove(cs[1..], kind);
      assert cs == [cs[0]] + cs[1..];
    }
  }

  /** Both library operations keep condition types unique. */
  lemma {:induction false} SetKeepsUnique(cs: seq<Condition>, c: Condition)
    requires UniqueKinds(cs)
    ensures UniqueKinds(SetCondition(cs, c))
  {
    if cs != [] && cs[0].kind != c.kind {
      SetKeepsUnique(cs[1..], c);
      MembersAfterSet(cs[1..], c);
      var tail := SetCondition(cs[1..], c);
      forall j | 0 <= j < |tail| ensures tail[j].kind != cs[0].kind {
        assert tail[j] in tail;
      }
    }
  }

  lemma {:induction false} RemoveKeepsUnique(cs: seq<Condition>, kind: string)
    requires UniqueKinds(cs)
    ensures UniqueKinds(RemoveCondition(cs, kind))
  {
    if cs != [] {
      RemoveKeepsUnique(cs[1..], kind);
      MembersAfterRemove(cs[1..], kind);
      var tail := RemoveCondition(cs[1..], kind);
      forall j | 0 <= j < |tail| ensures tail[j].kind != cs[0].kind {
        assert tail[j] in tail;
      }
    }
  }

  /** Setting a condition that is already there, and is the only one of its type, changes nothing. */
  lemma {:induction false} SetPresent(cs: seq<Condition>, c: Condition)
    requires Lookup(cs, c.kind) == Some(c)
    ensures SetCondition(cs, c) == cs
  {
    if cs[0].kind != c.kind {
      SetPresent(cs[1..], c);
    }
  }

  // ---------------------------------------------------------------- several conditions in a row

  function SetAll(cs: seq<Condition>, ws: seq<Condition>): seq<Condition>
    decreases |ws|
  {
    if ws == [] then cs else SetAll(SetCondition(cs, ws[0]), ws[1..])
  }

  /** The last condition of a type among those set. */
  function LastOf(ws: seq<Condition>, kind: string): Option<Condition> {
    if ws == [] then None
    else if LastOf(ws[1..], kind).Some? then LastOf(ws[1..], kind)
    else if ws[0].kind == kind then Some(ws[0]) else None
  }

  /** The last writer of a type wins, whatever the list held before. */
  lemma {:induction false} LookupAfterSetAll(cs: seq<Condition>, ws: seq<Condition>, kind: string)
    ensures Lookup(SetAll(cs, ws), kind) == if LastOf(ws, kind).Some? then LastOf(ws, kind) else Lookup(cs, kind)
    decreases |ws|
  {
    if ws != [] {
      LookupAfterSet(cs, ws[0], kind);
      LookupAfterSetAll(SetCondition(cs, ws[0]), ws[1..], kind);
    }
  }

  ghost predicate SameKinds(a: seq<Condition>, b: seq<Condition>) {
    |a| == |b| && forall i :: 0 <= i < |a| ==> a[i].kind == b[i].kind
  }

  lemma {:induction false} SetKeepsKinds(cs: seq<Condition>, c: Condition)
    requires HasKind(cs, c.kind)
    ensures SameKinds(cs, SetCondition(cs, c))
  {
    if cs[0].kind != c.kind {
      SetKeepsKinds(cs[1..], c);
      var tail := SetCondition(cs[1..], c);
      forall i | 0 <= i < |cs| ensures cs[i].kind == ([cs[0]] + tail)[i].kind {
        if i > 0 { assert cs[i] == cs[1..][i - 1]; }
      }
    }
  }

  lemma {:induction false} SetAllKeepsKinds(cs: seq<Condition>, ws: seq<Condition>)
    requires forall w :: w in ws ==> HasKind(cs, w.kind)
    ensures SameKinds(cs, SetAll(cs, ws))
    decreases |ws|
  {
    if ws != [] {
      SetKeepsKinds(cs, ws[0]);
      var cs1 := SetCondition(cs, ws[0]);
      forall w | w in ws[1..] ensures HasKind(cs1, w.kind) {
        assert w in ws;
        LookupAfterSet(cs, ws[0], w.kind);
      }
      SetAllKeepsKinds(cs1, ws[1..]);
    }
  }

  lemma {:induction false} SetAllKeepsUnique(cs: seq<Condition>, ws: seq<Condition>)
    requires UniqueKinds(cs)
    ensures UniqueKinds(SetAll(cs, ws))
    decreases |ws|
  {
    if ws != [] {
      SetKeepsUnique(cs, ws[0]);
      SetAllKeepsUnique(SetCondition(cs, ws[0]), ws[1..]);
    }
  }

  lemma {:induction false} LookupAt(cs: seq<Condition>, i: nat)
    requires UniqueKinds(cs) && i < |cs|
    ensures Lookup(cs, cs[i].kind) == Some(cs[i])
  {
    if i > 0 {
      LookupAt(cs[1..], i - 1);
      assert cs[0].kind != cs[i].kind;
    }
  }

  /** A list without repeated types is determined by the order of its types and what they read as. */
  lemma {:induction false} SameLookups(a: seq<Condition>, b: seq<Condition>)
    requires UniqueKinds(a) && SameKinds(a, b) && forall k :: Lookup(a, k) == Lookup(b, k)
    ensures a == b
  {
    forall i | 0 <= i < |a| ensures a[i] == b[i] {
      LookupAt(a, i);
      LookupAt(b, i);
    }
  }

  lemma {:induction false} LastOfMember(ws: seq<Condition>, w: Condition)
    requires w in ws
    ensures LastOf(ws, w.kind).Some?
  {
    if w in ws[1..] { LastOfMember(ws[1..], w); }
  }

  /** Setting the same conditions a second time changes nothing, even when several share a type. */
  lemma {:induction false} SetAllTwice(cs: seq<Condition>, ws: seq<Condition>)
    requires UniqueKinds(cs)
    ensures SetAll(SetAll(cs, ws), ws) == SetAll(cs, ws)
  {
    var cs1 := SetAll(cs, ws);
    SetAllKeepsUnique(cs, ws);
    forall w | w in ws ensures HasKind(cs1, w.kind) {
      LookupAfterSetAll(cs, ws, w.kind);
      LastOfMember(ws, w);
    }
    SetAllKeepsKinds(cs1, ws);
    forall k ensures Lookup(cs1, k) == Lookup(SetAll(cs1, ws), k) {
      LookupAfterSetAll(cs, ws, k);
      LookupAfterSetAll(cs1, ws, k);
    }
    SameLookups(cs1, SetAll(cs1, ws));
  }
}
