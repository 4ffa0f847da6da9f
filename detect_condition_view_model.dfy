/** The editable list of detection conditions
    (ViewModels/DetectConditionViewModel.swift): an upsert keyed by id and
    two ways of deleting. The list is a `seq` field that each method
    reassigns; what each method does is a function of the old list, and the
    properties the editor relies on are lemmas about those functions. */
module ConditionViewModel {
  import opened Base
  import opened Conditions

  /** `i` is the first position of `s` whose id is `id`. */
  predicate IsFirstWithId(s: seq<DetectCondition>, id: Uuid, i: nat)
  {
    i < |s| && s[i].id == id && forall j :: 0 <= j < i ==> s[j].id != id
  }

  /** Some element of `s` has id `id`. */
  predicate HasId(s: seq<DetectCondition>, id: Uuid)
  {
    exists j :: 0 <= j < |s| && s[j].id == id
  }

  /** No two positions of `s` share an id. */
  predicate UniqueIds(s: seq<DetectCondition>)
  {
    forall i, j :: 0 <= i < j < |s| ==> s[i].id != s[j].id
  }

  /** `firstIndex(where: { $0.id == id })`. */
  function FirstIndexOf(s: seq<DetectCondition>, id: Uuid): (r: Option<nat>)
    ensures r.Some? ==> IsFirstWithId(s, id, r.value)
    ensures r.None? <==> !HasId(s, id)
    decreases |s|
  {
    if s == [] then None
    else if s[0].id == id then Some(0)
    else match FirstIndexOf(s[1..], id)
      case Some(k) => Some(k + 1)
      case None => None
  }

  /** What `insert` makes of the list: the first element with the same id
      is replaced, or the condition is appended when the id is new. Either
      way the list then contains `c`, grows by at most one, and every
      position holding another id keeps its element. */
  function Upsert(s: seq<DetectCondition>, c: DetectCondition): (r: seq<DetectCondition>)
    ensures c in r
    ensures |s| <= |r| <= |s| + 1
    ensures forall j :: 0 <= j < |s| && s[j].id != c.id ==> r[j] == s[j]
  {
    match FirstIndexOf(s, c.id)
    case Some(i) => assert s[i := c][i] == c; s[i := c]
    case None => assert (s + [c])[|s|] == c; s + [c]
  }

  /** Inserting a condition whose id is present replaces the first element
      with that id and leaves the length and every other position alone. */
  lemma UpsertReplacesFirstMatch(s: seq<DetectCondition>, c: DetectCondition, i: nat)
    requires IsFirstWithId(s, c.id, i)
    ensures |Upsert(s, c)| == |s| && Upsert(s, c)[i] == c
    ensures forall j :: 0 <= j < |s| && j != i ==> Upsert(s, c)[j] == s[j]
  {
  }

  /** Inserting a condition with a new id appends it: the old list is a
      prefix and the length grows by one. */
  lemma UpsertAppendsNew(s: seq<DetectCondition>, c: DetectCondition)
    requires !HasId(s, c.id)
    ensures Upsert(s, c) == s + [c]
    ensures |Upsert(s, c)| == |s| + 1 && Upsert(s, c)[..|s|] == s
  {
  }

  /** `insert` keeps ids unique. */
  lemma UpsertKeepsUniqueIds(s: seq<DetectCondition>, c: DetectCondition)
    requires UniqueIds(s)
    ensures UniqueIds(Upsert(s, c))
  {
    var r := Upsert(s, c);
    match FirstIndexOf(s, c.id)
    case Some(i) =>
      forall j | 0 <= j < |r| ensures r[j].id == s[j].id {
      }
    case None =>
      forall j | 0 <= j < |s| ensures s[j].id != c.id {
      }
  }

  /** `remove(atOffsets:)`: the list without the positions in `offsets`,
      survivors in their old order. */
  function RemoveOffsets(s: seq<DetectCondition>, offsets: set<nat>): (r: seq<DetectCondition>)
    ensures |r| <= |s|
    decreases |s|
  {
    if s == [] then []
    else
      var n := |s| - 1;
      RemoveOffsets(s[..n], offsets) + (if n in offsets then [] else [s[n]])
  }

  /** `removeAll { $0.id == id }`: the list without every element whose id
      is `id`, the others in their old order. */
  function RemoveAllWithId(s: seq<DetectCondition>, id: Uuid): (r: seq<DetectCondition>)
    ensures |r| <= |s|
    decreases |s|
  {
    if s == [] then []
    else
      var n := |s| - 1;
      RemoveAllWithId(s[..n], id) + (if s[n].id == id then [] else [s[n]])
  }

  /** The positions `0 .. n-1` not in `offsets`, in increasing order. */
  function Survivors(n: nat, offsets: set<nat>): (idx: seq<nat>)
    ensures forall k :: 0 <= k < |idx| ==> idx[k] < n
    decreases n
  {
    if n == 0 then []
    else Survivors(n - 1, offsets) + (if n - 1 in offsets then [] else [n - 1])
  }

  /** The survivors are exactly the positions below `n` not in `offsets`,
      listed in strictly increasing order. */
  lemma {:induction false} SurvivorsExact(n: nat, offsets: set<nat>)
    ensures forall k1, k2 :: 0 <= k1 < k2 < |Survivors(n, offsets)| ==>
              Survivors(n, offsets)[k1] < Survivors(n, offsets)[k2]
    ensures forall x: nat :: x in Survivors(n, offsets) <==> x < n && x !in offsets
  {
    if n > 0 {
      SurvivorsExact(n - 1, offsets);
    }
  }

  /** `delete(at:)` removes exactly the listed positions: the result is the
      old list read at the surviving positions, in increasing order. */
  lemma {:induction false} RemoveOffsetsAtSurvivors(s: seq<DetectCondition>, offsets: set<nat>)
    ensures |RemoveOffsets(s, offsets)| == |Survivors(|s|, offsets)|
    ensures forall k :: 0 <= k < |Survivors(|s|, offsets)| ==>
              RemoveOffsets(s, offsets)[k] == s[Survivors(|s|, offsets)[k]]
  {
    if s != [] {
      var n := |s| - 1;
      RemoveOffsetsAtSurvivors(s[..n], offsets);
    }
  }

  /** Only the offsets below the length of the list matter. */
  lemma {:induction false} RemoveOffsetsOnlyInRange(s: seq<DetectCondition>, o1: set<nat>, o2: set<nat>)
    requires forall i: nat :: i < |s| ==> (i in o1 <==> i in o2)
    ensures RemoveOffsets(s, o1) == RemoveOffsets(s, o2)
  {
    if s != [] {
      RemoveOffsetsOnlyInRange(s[..|s| - 1], o1, o2);
    }
  }

  /** With valid offsets, the length drops by exactly the number of offsets. */
  lemma {:induction false} RemoveOffsetsLength(s: seq<DetectCondition>, offsets: set<nat>)
    requires forall o :: o in offsets ==> o < |s|
    ensures |RemoveOffsets(s, offsets)| == |s| - |offsets|
  {
    if s != [] {
      var n := |s| - 1;
      var rest := offsets - {n};
      RemoveOffsetsOnlyInRange(s[..n], offsets, rest);
      RemoveOffsetsLength(s[..n], rest);
    }
  }

  /** The positions of `s` holding id `id`. */
  function PositionsWithId(s: seq<DetectCondition>, id: Uuid): set<nat>
  {
    set i: nat | i < |s| && s[i].id == id
  }

  /** `delete(id:)` is `delete(at:)` applied to the positions holding that
      id, so it removes every such element and keeps the rest in order. */
  lemma {:induction false} RemoveAllIsRemoveOffsets(s: seq<DetectCondition>, id: Uuid)
    ensures RemoveAllWithId(s, id) == RemoveOffsets(s, PositionsWithId(s, id))
  {
    if s != [] {
      var n := |s| - 1;
      RemoveAllIsRemoveOffsets(s[..n], id);
      RemoveOffsetsOnlyInRange(s[..n], PositionsWithId(s[..n], id), PositionsWithId(s, id));
    }
  }

  /** No element with the removed id survives, and every other element does. */
  lemma {:induction false} RemoveAllMembership(s: seq<DetectCondition>, id: Uuid, c: DetectCondition)
    ensures c in RemoveAllWithId(s, id) <==> c in s && c.id != id
  {
    if s != [] {
      RemoveAllMembership(s[..|s| - 1], id, c);
      assert s == s[..|s| - 1] + [s[|s| - 1]];
    }
  }

  /** Deleting an absent id leaves the list unchanged. */
  lemma {:induction false} RemoveAbsentId(s: seq<DetectCondition>, id: Uuid)
    requires !HasId(s, id)
    ensures RemoveAllWithId(s, id) == s
  {
    if s != [] {
      var n := |s| - 1;
      RemoveAbsentId(s[..n], id);
      assert s == s[..n] + [s[n]];
    }
  }

  /** Removing positions keeps ids unique. */
  lemma RemoveOffsetsKeepsUniqueIds(s: seq<DetectCondition>, offsets: set<nat>)
    requires UniqueIds(s)
    ensures UniqueIds(RemoveOffsets(s, offsets))
  {
    RemoveOffsetsAtSurvivors(s, offsets);
    SurvivorsExact(|s|, offsets);
  }

  /** The nine sample conditions the view model starts with. The Swift
      initializer draws a fresh `UUID()` for each; here they are `ids`. */
  function InitialConditions(ids: seq<Uuid>): (s: seq<DetectCondition>)
    requires |ids| == 9
    ensures |s| == 9 && forall i :: 0 <= i < 9 ==> s[i].id == ids[i]
  {
    [ NewCondition(ids[0], Fall, "카메라 프레임 내 사람이 급격히 수직 낙하", 4),
      NewCondition(ids[1], Collision, "두 객체의 이동 벡터가 수렴(상호 충돌 위험)", 2),
      NewCondition(ids[2], Density, "ROI 내 인원 밀집도 임계치 초과(> 6명/㎡)", 1),
      NewCondition(ids[3], Restricted, "출입금지 구역 경계선 침범", 2),
      NewCondition(ids[4], Undefined, "모델이 분류하지 못한 이상 패턴", 3),
      NewCondition(ids[5], Fall, "낙상 후 3초 이상 움직임 없음", 4),
      NewCondition(ids[6], Collision, "차량-보행자 근접 거리 < 0.5m", 3),
      NewCondition(ids[7], Density, "대피구 통로 정체 감지", 1),
      NewCondition(ids[8], Restricted, "야간 시간대 공사장 무단 출입", 2) ]
  }

  class DetectConditionViewModel {
    var conditions: seq<DetectCondition>

    constructor (ids: seq<Uuid>)
      requires |ids| == 9
      ensures conditions == InitialConditions(ids)
      ensures (forall i, j :: 0 <= i < j < 9 ==> ids[i] != ids[j]) ==> UniqueIds(conditions)
    {
      conditions := InitialConditions(ids);
    }

    /** `insert(_:)`: upsert keyed by id. */
    method Insert(c: DetectCondition)
      modifies this
      ensures conditions == Upsert(old(conditions), c)
      ensures c in conditions
      ensures old(UniqueIds(conditions)) ==> UniqueIds(conditions)
    {
      if UniqueIds(conditions) {
        UpsertKeepsUniqueIds(conditions, c);
      }
      var idx := FirstIndexOf(conditions, c.id);
      if idx.Some? {
        conditions := conditions[idx.value := c];
      } else {
        conditions := conditions + [c];
      }
    }

    /** `delete(at:)`: Swift traps on an offset outside the list, so every
        offset must be a valid position. */
    method DeleteAt(offsets: set<nat>)
      requires forall o :: o in offsets ==> o < |conditions|
      modifies this
      ensures conditions == RemoveOffsets(old(conditions), offsets)
      ensures |conditions| == |old(conditions)| - |offsets|
      ensures old(UniqueIds(conditions)) ==> UniqueIds(conditions)
    {
      RemoveOffsetsLength(conditions, offsets);
      if UniqueIds(conditions) {
        RemoveOffsetsKeepsUniqueIds(conditions, offsets);
      }
      conditions := RemoveOffsets(conditions, offsets);
    }

    /** `delete(id:)`: remove every condition with that id. */
    method DeleteId(id: Uuid)
      modifies this
      ensures conditions == RemoveAllWithId(old(conditions), id)
      ensures forall c :: c in conditions <==> c in old(conditions) && c.id != id
      ensures old(UniqueIds(conditions)) ==> UniqueIds(conditions)
    {
      forall c ensures c in RemoveAllWithId(conditions, id) <==> c in conditions && c.id != id {
        RemoveAllMembership(conditions, id, c);
      }
      RemoveAllIsRemoveOffsets(conditions, id);
      if UniqueIds(conditions) {
        RemoveOffsetsKeepsUniqueIds(conditions, PositionsWithId(conditions, id));
      }
      conditions := RemoveAllWithId(conditions, id);
    }
  }
}
