/** The one piece of query semantics the generator depends on: `getDefaultTasks` and
    `getVaccineSchedules` filter by `pet_type_id` only when the id they are given is
    truthy (lib/api.ts:472-474, lib/api.ts:301-303). */
module Queries {
  import opened Domain

  /** The rows of `rows` whose pet type is `petTypeId`, in table order, or every row
      when `petTypeId` is 0. */
  function SelectByPetType<T(==)>(rows: seq<T>, petTypeOf: T -> int, petTypeId: int): (r: seq<T>)
    ensures !Truthy(petTypeId) ==> r == rows
    ensures Truthy(petTypeId) ==> forall i :: 0 <= i < |r| ==> r[i] in rows && petTypeOf(r[i]) == petTypeId
    ensures Truthy(petTypeId) ==> forall i :: 0 <= i < |rows| && petTypeOf(rows[i]) == petTypeId ==> rows[i] in r
    ensures |r| <= |rows|
  {
    if !Truthy(petTypeId) then rows
    else if rows == [] then []
    else if petTypeOf(rows[0]) == petTypeId then [rows[0]] + SelectByPetType(rows[1..], petTypeOf, petTypeId)
    else SelectByPetType(rows[1..], petTypeOf, petTypeId)
  }

  /** `idx` lists, in increasing order, the positions of `rows` that `r` copies. */
  ghost predicate PicksInOrder<T>(rows: seq<T>, r: seq<T>, idx: seq<nat>)
  {
    && |idx| == |r|
    && (forall i :: 0 <= i < |idx| ==> idx[i] < |rows| && rows[idx[i]] == r[i])
    && (forall i, j :: 0 <= i < j < |idx| ==> idx[i] < idx[j])
  }

  /** The selection keeps the table order and every row of the type, duplicates
      included: its `i`-th row is row `idx[i]` of the table, the positions increase, and
      every position of a row of the type (every position, for a zero type) is
      among them. */
  lemma {:induction false} SelectKeepsTableOrder<T>(rows: seq<T>, petTypeOf: T -> int, petTypeId: int)
    returns (idx: seq<nat>)
    ensures PicksInOrder(rows, SelectByPetType(rows, petTypeOf, petTypeId), idx)
    ensures forall j :: 0 <= j < |rows| && (!Truthy(petTypeId) || petTypeOf(rows[j]) == petTypeId) ==> j in idx
  {
    if !Truthy(petTypeId) {
      idx := seq(|rows|, i requires 0 <= i < |rows| => i);
      forall j | 0 <= j < |rows| ensures j in idx {
        assert idx[j] == j;
      }
    } else if rows == [] {
      idx := [];
    } else {
      var rest := SelectKeepsTableOrder(rows[1..], petTypeOf, petTypeId);
      idx := PickStep(rows, petTypeOf, petTypeId, rest);
    }
  }

  /** One step of the induction above: from the positions picked in `rows[1..]` to
      those picked in `rows`. */
  lemma PickStep<T>(rows: seq<T>, petTypeOf: T -> int, petTypeId: int, rest: seq<nat>) returns (idx: seq<nat>)
    requires Truthy(petTypeId) && rows != []
    requires PicksInOrder(rows[1..], SelectByPetType(rows[1..], petTypeOf, petTypeId), rest)
    requires forall j :: 0 <= j < |rows| - 1 && petTypeOf(rows[1..][j]) == petTypeId ==> j in rest
    ensures PicksInOrder(rows, SelectByPetType(rows, petTypeOf, petTypeId), idx)
    ensures forall j :: 0 <= j < |rows| && petTypeOf(rows[j]) == petTypeId ==> j in idx
  {
    var tail := SelectByPetType(rows[1..], petTypeOf, petTypeId);
    var shifted := ShiftPicks(rows, tail, rest);
    if petTypeOf(rows[0]) == petTypeId {
      idx := [0] + shifted;
      PrependPick(rows, tail, shifted);
    } else {
      idx := shifted;
    }
    forall j | 0 <= j < |rows| && petTypeOf(rows[j]) == petTypeId ensures j in idx {
      if j > 0 {
        assert rows[1..][j - 1] == rows[j];
        assert j - 1 in rest;
      }
    }
  }

  /** Positions picked in `rows[1..]`, moved one place on, are positions in `rows`. */
  lemma ShiftPicks<T>(rows: seq<T>, tail: seq<T>, rest: seq<nat>) returns (shifted: seq<nat>)
    requires rows != [] && PicksInOrder(rows[1..], tail, rest)
    ensures PicksInOrder(rows, tail, shifted)
    ensures forall j :: j in rest ==> j + 1 in shifted
    ensures forall i :: 0 <= i < |shifted| ==> 1 <= shifted[i]
  {
    shifted := seq(|rest|, i requires 0 <= i < |rest| => rest[i] + 1);
    forall i | 0 <= i < |shifted| ensures rows[shifted[i]] == tail[i] {
      assert rows[1..][rest[i]] == rows[rest[i] + 1];
    }
    forall j | j in rest ensures j + 1 in shifted {
      var i :| 0 <= i < |rest| && rest[i] == j;
      assert shifted[i] == j + 1;
    }
  }

  /** Picking the first row in front of later picks keeps the order. */
  lemma PrependPick<T>(rows: seq<T>, tail: seq<T>, shifted: seq<nat>)
    requires rows != [] && PicksInOrder(rows, tail, shifted)
    requires forall i :: 0 <= i < |shifted| ==> 1 <= shifted[i]
    ensures PicksInOrder(rows, [rows[0]] + tail, [0] + shifted)
  {
  }
}
