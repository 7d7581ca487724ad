/** The keyed condition list of src/conditions.rs: an in-place upsert on an optional
    vector, proved to refine a map with history. */
module Conditions {
  import opened Wrappers

  type Time = int

  datatype Condition<T> = Condition(
    type_: T,
    status: string,
    reason: string,
    message: string,
    observedGeneration: int,
    lastTransitionTime: Time)

  /** The `conditions` field of a status: absent until the first upsert. */
  type ConditionList<T> = Option<seq<Condition<T>>>

  function StatusText(b: bool): string {
    if b then "True" else "False"
  }

  /** Index of the first condition of the given type. */
  function Position<T(==)>(cs: seq<Condition<T>>, ty: T): (r: Option<nat>)
    ensures r.Some? ==> r.value < |cs| && cs[r.value].type_ == ty
    ensures r.Some? ==> forall j :: 0 <= j < r.value ==> cs[j].type_ != ty
    ensures r.None? ==> forall j :: 0 <= j < |cs| ==> cs[j].type_ != ty
  {
    if cs == [] then None
    else if cs[0].type_ == ty then Some(0)
    else
      match Position(cs[1..], ty)
      case None => None
      case Some(p) => Some(p + 1)
  }

  /** The condition that replaces `was` when a condition of the same type arrives. */
  function Merged<T(==)>(was: Condition<T>, c: Condition<T>): Condition<T> {
    if was.status != c.status then c else c.(lastTransitionTime := was.lastTransitionTime)
  }

  function UpsertSeq<T(==)>(cs: seq<Condition<T>>, c: Condition<T>): (r: seq<Condition<T>>) {
    match Position(cs, c.type_)
    case Some(p) => cs[p := Merged(cs[p], c)]
    case None => cs + [c]
  }

  function Upsert<T(==)>(cs: ConditionList<T>, c: Condition<T>): (r: ConditionList<T>)
    ensures r.Some?
  {
    Some(UpsertSeq(cs.GetOr([]), c))
  }

  /** What a reader of the list sees for one type: absent, or whether it is True. */
  function Flag<T(==)>(cs: ConditionList<T>, ty: T): Option<bool> {
    if cs.None? then None
    else
      match Position(cs.value, ty)
      case None => None
      case Some(p) => Some(cs.value[p].status == "True")
  }

  lemma PositionIsFirst<T>(cs: seq<Condition<T>>, ty: T, p: nat)
    requires p < |cs| && cs[p].type_ == ty
    requires forall j :: 0 <= j < p ==> cs[j].type_ != ty
    ensures Position(cs, ty) == Some(p)
  {
    var q := Position(cs, ty);
    if q.Some? && q.value < p {
    }
  }

  /** An upsert sets the flag of its own type and leaves every other type alone. */
  lemma FlagAfterUpsert<T>(cs: ConditionList<T>, c: Condition<T>, ty: T)
    ensures Flag(Upsert(cs, c), ty) == if ty == c.type_ then Some(c.status == "True") else Flag(cs, ty)
  {
    var prior := cs.GetOr([]);
    var new_ := UpsertSeq(prior, c);
    assert forall j :: 0 <= j < |prior| ==> new_[j].type_ == prior[j].type_;
    match Position(prior, ty) {
      case Some(p) => PositionIsFirst(new_, ty, p);
      case None =>
        if ty == c.type_ {
          PositionIsFirst(new_, ty, |prior|);
        } else {
          assert Position(new_, ty).None?;
        }
    }
  }

  /** `upsert_bool` at clock reading `now`. */
  function PutBool<T(==,!new)>(cs: ConditionList<T>, ty: T, b: bool, reason: string, message: string,
                      generation: int, now: Time): (r: ConditionList<T>)
    ensures forall t: T :: Flag(r, t) == if t == ty then Some(b) else Flag(cs, t)
  {
    var c := Condition(ty, StatusText(b), reason, message, generation, now);
    assert forall t: T :: Flag(Upsert(cs, c), t) == if t == ty then Some(b) else Flag(cs, t) by {
      assert |StatusText(false)| == 5 && |"True"| == 4;
      forall t: T ensures Flag(Upsert(cs, c), t) == if t == ty then Some(b) else Flag(cs, t) {
        FlagAfterUpsert(cs, c, t);
      }
    }
    Upsert(cs, c)
  }

  /** A value that exposes a `conditions` field, with the trait's default methods. */
  class Holder<T(==,!new)> {
    var conditions: ConditionList<T>

    constructor ()
      ensures conditions == None
    {
      conditions := None;
    }

    method UpsertCondition(c: Condition<T>)
      modifies this
      ensures conditions == Upsert(old(conditions), c)
    {
      match conditions {
        case Some(vec) =>
          var pos := 0;
          while pos < |vec| && vec[pos].type_ != c.type_
            invariant pos <= |vec|
            invariant forall j :: 0 <= j < pos ==> vec[j].type_ != c.type_
          {
            pos := pos + 1;
          }
          if pos < |vec| {
            PositionIsFirst(vec, c.type_, pos);
            if vec[pos].status != c.status {
              conditions := Some(vec[pos := c]);
            } else {
              var kept := vec[pos].lastTransitionTime;
              var entry := vec[pos];
              entry := entry.(reason := c.reason);
              entry := entry.(message := c.message);
              entry := entry.(observedGeneration := c.observedGeneration);
              entry := entry.(lastTransitionTime := kept);
              conditions := Some(vec[pos := entry]);
            }
          } else {
            conditions := Some(vec + [c]);
          }
        case None =>
          assert UpsertSeq([], c) == [c];
          conditions := Some([c]);
      }
    }

    method UpsertBool(ty: T, b: bool, reason: string, message: Option<string>, generation: int, now: Time)
      modifies this
      ensures conditions == PutBool(old(conditions), ty, b, reason, message.GetOr(""), generation, now)
    {
      var c := Condition(ty, if b then "True" else "False", reason, message.GetOr(""), generation, now);
      UpsertCondition(c);
    }

    method ClearConditions()
      modifies this
      ensures conditions == None
    {
      conditions := None;
    }
  }

  // ---------------------------------------------------------------------------------------
  // The list as a map with history
  // ---------------------------------------------------------------------------------------

  datatype Op<T> = Put(c: Condition<T>) | Clear

  /** What the list becomes after a history of operations from no conditions. */
  function Replay<T(==)>(ops: seq<Op<T>>): ConditionList<T> {
    if ops == [] then None
    else
      var last := ops[|ops| - 1];
      var before := Replay(ops[..|ops| - 1]);
      match last
      case Put(c) => Upsert(before, c)
      case Clear => None
  }

  /** The conditions put since the last clear, oldest first. */
  function Live<T(==)>(ops: seq<Op<T>>): seq<Condition<T>> {
    if ops == [] then []
    else
      match ops[|ops| - 1]
      case Put(c) => Live(ops[..|ops| - 1]) + [c]
      case Clear => []
  }

  /** The types of a history, in the order in which each was first seen. */
  function FirstSeen<T(==)>(h: seq<Condition<T>>): seq<T> {
    if h == [] then []
    else
      var before := FirstSeen(h[..|h| - 1]);
      if h[|h| - 1].type_ in before then before else before + [h[|h| - 1].type_]
  }

  /** The part of a history that concerns one type. */
  function OfType<T(==)>(h: seq<Condition<T>>, ty: T): seq<Condition<T>> {
    if h == [] then []
    else
      var before := OfType(h[..|h| - 1], ty);
      if h[|h| - 1].type_ == ty then before + [h[|h| - 1]] else before
  }

  /** Time of the first entry of the trailing block of equal statuses. */
  function BlockStart<T(==)>(h: seq<Condition<T>>): Time
    requires h != []
  {
    if |h| >= 2 && h[|h| - 2].status == h[|h| - 1].status then BlockStart(h[..|h| - 1])
    else h[|h| - 1].lastTransitionTime
  }

  /** The entry a map with history holds for one type: the latest condition of that type,
      dated by the start of its trailing block. */
  function Summary<T(==)>(h: seq<Condition<T>>, ty: T): Condition<T>
    requires OfType(h, ty) != []
  {
    var mine := OfType(h, ty);
    mine[|mine| - 1].(lastTransitionTime := BlockStart(mine))
  }

  lemma {:induction false} FirstSeenIsExact<T>(h: seq<Condition<T>>)
    ensures forall ty: T :: ty in FirstSeen(h) <==> OfType(h, ty) != []
    ensures forall i, j :: 0 <= i < j < |FirstSeen(h)| ==> FirstSeen(h)[i] != FirstSeen(h)[j]
  {
    if h != [] {
      FirstSeenIsExact(h[..|h| - 1]);
    }
  }

  lemma SeenHasEntries<T>(h: seq<Condition<T>>, ty: T)
    requires ty in FirstSeen(h)
    ensures OfType(h, ty) != []
  {
    FirstSeenIsExact(h);
  }

  lemma {:induction false} OfTypeHasType<T>(h: seq<Condition<T>>, ty: T)
    ensures forall c :: c in OfType(h, ty) ==> c.type_ == ty
  {
    if h != [] {
      OfTypeHasType(h[..|h| - 1], ty);
    }
  }

  /** The reference list: one entry per type in first-seen order. */
  function Reference<T(==)>(h: seq<Condition<T>>): seq<Condition<T>> {
    seq(|FirstSeen(h)|, i requires 0 <= i < |FirstSeen(h)| =>
      SeenHasEntries(h, FirstSeen(h)[i]); Summary(h, FirstSeen(h)[i]))
  }

  /** One more condition adds itself to the history of its own type, and to no other. */
  lemma OfTypeSnoc<T>(h: seq<Condition<T>>, c: Condition<T>, ty: T)
    ensures OfType(h + [c], ty) == if c.type_ == ty then OfType(h, ty) + [c] else OfType(h, ty)
  {
    assert (h + [c])[..|h|] == h;
  }

  /** It adds its type to those seen, unless it is there. */
  lemma FirstSeenSnoc<T>(h: seq<Condition<T>>, c: Condition<T>)
    ensures FirstSeen(h + [c]) == if c.type_ in FirstSeen(h) then FirstSeen(h) else FirstSeen(h) + [c.type_]
  {
    assert (h + [c])[..|h|] == h;
  }

  /** The entry of a type already seen is merged with the condition; another type's entry stays. */
  lemma SummarySnoc<T>(h: seq<Condition<T>>, c: Condition<T>, ty: T)
    requires OfType(h, ty) != []
    ensures OfType(h + [c], ty) != []
    ensures Summary(h + [c], ty) == if ty == c.type_ then Merged(Summary(h, ty), c) else Summary(h, ty)
  {
    OfTypeSnoc(h, c, ty);
    var mine := OfType(h, ty);
    assert (mine + [c])[..|mine|] == mine;
  }

  /** The first entry of a type is the condition itself. */
  lemma SummaryFirst<T>(h: seq<Condition<T>>, c: Condition<T>)
    requires OfType(h, c.type_) == []
    ensures OfType(h + [c], c.type_) == [c] && Summary(h + [c], c.type_) == c
  {
    OfTypeSnoc(h, c, c.type_);
  }

  lemma ReferenceType<T>(h: seq<Condition<T>>, i: nat)
    requires i < |FirstSeen(h)|
    ensures |Reference(h)| == |FirstSeen(h)| && Reference(h)[i].type_ == FirstSeen(h)[i]
    ensures OfType(h, FirstSeen(h)[i]) != [] && Reference(h)[i] == Summary(h, FirstSeen(h)[i])
  {
    SeenHasEntries(h, FirstSeen(h)[i]);
    OfTypeHasType(h, FirstSeen(h)[i]);
  }

  /** One more condition changes the reference exactly as the in-place upsert changes the vector. */
  lemma ReferenceStep<T>(h: seq<Condition<T>>, c: Condition<T>)
    ensures UpsertSeq(Reference(h), c) == Reference(h + [c])
  {
    hide OfType, FirstSeen, Summary, Reference, Merged;
    var types := FirstSeen(h);
    var was, now := Reference(h), Reference(h + [c]);
    assert |was| == |types| && |now| == |FirstSeen(h + [c])| by { ReferenceLength(h); ReferenceLength(h + [c]); }
    FirstSeenSnoc(h, c);
    forall i: nat | i < |types|
      ensures was[i].type_ == types[i] && now[i] == if types[i] == c.type_ then Merged(was[i], c) else was[i]
    {
      ReferenceType(h, i);
      ReferenceType(h + [c], i);
      SummarySnoc(h, c, types[i]);
    }
    if c.type_ in types {
      var p: nat :| p < |types| && types[p] == c.type_;
      SeenOnce(h, p);
      PositionIsFirst(was, c.type_, p);
      assert UpsertSeq(was, c) == was[p := Merged(was[p], c)];
    } else {
      assert Position(was, c.type_).None?;
      UnseenIsEmpty(h, c.type_);
      SummaryFirst(h, c);
      ReferenceType(h + [c], |types|);
    }
  }

  lemma ReferenceLength<T>(h: seq<Condition<T>>)
    ensures |Reference(h)| == |FirstSeen(h)|
  {
  }

  lemma SeenOnce<T>(h: seq<Condition<T>>, p: nat)
    requires p < |FirstSeen(h)|
    ensures forall i :: 0 <= i < |FirstSeen(h)| && i != p ==> FirstSeen(h)[i] != FirstSeen(h)[p]
  {
    FirstSeenIsExact(h);
  }

  lemma UnseenIsEmpty<T>(h: seq<Condition<T>>, ty: T)
    requires ty !in FirstSeen(h)
    ensures OfType(h, ty) == []
  {
    FirstSeenIsExact(h);
  }

  /** Main result: after any history of upserts and clears the vector is the map with history. */
  lemma {:induction false} ReplayRefinesHistory<T>(ops: seq<Op<T>>)
    ensures Replay(ops).GetOr([]) == Reference(Live(ops))
    ensures Replay(ops).None? <==> Live(ops) == []
  {
    if ops != [] {
      var before := ops[..|ops| - 1];
      ReplayRefinesHistory(before);
      match ops[|ops| - 1] {
        case Put(c) => ReferenceStep(Live(before), c);
        case Clear =>
      }
    }
  }
}
