/** The argument records of the client's batch operations (the `state`,
    `stateUpdate`, `dataItem` and `connector` types of the source). */
module Shapes {
  import opened Results

  /** An entry of `createStateMany`. `parentGroup` is optional. */
  datatype StateSpec = StateSpec(id: string, desc: string, defaultValue: string, parentGroup: Option<string>)

  /** An entry of `stateUpdateMany`. */
  datatype StateUpdate = StateUpdate(id: string, value: string)

  /** One `|id=value` part of a long connector id. */
  datatype DataItem = DataItem(id: string, value: string)

  /** An entry of `connectorUpdateMany`. `data` is `None` when the caller's
      `data` is not an array, which the id derivation treats as no items. */
  datatype Connector = Connector(id: string, value: string, shortId: Option<string>, data: Option<seq<DataItem>>)

  /** The ids of a list of states. */
  function Ids(states: seq<StateSpec>): set<string>
    decreases |states|
  {
    if states == [] then {} else {states[0].id} + Ids(states[1..])
  }

  lemma {:induction false} IdsMembers(states: seq<StateSpec>)
    ensures forall i :: 0 <= i < |states| ==> states[i].id in Ids(states)
    ensures forall k :: k in Ids(states) ==> exists i :: 0 <= i < |states| && states[i].id == k
    decreases |states|
  {
    if states != [] {
      IdsMembers(states[1..]);
      forall i | 1 <= i < |states| ensures states[i].id in Ids(states) {
        assert states[i] == states[1..][i - 1];
      }
      forall k | k in Ids(states) ensures exists i :: 0 <= i < |states| && states[i].id == k {
        if k != states[0].id {
          var j :| 0 <= j < |states[1..]| && states[1..][j].id == k;
          assert states[j + 1].id == k;
        }
      }
    }
  }

  /** `a` is `b` with some entries left out, the others in their order. */
  predicate IsSubsequence(a: seq<StateSpec>, b: seq<StateSpec>)
    decreases |b|
  {
    if b == [] then a == []
    else (a != [] && a[0] == b[0] && IsSubsequence(a[1..], b[1..])) || IsSubsequence(a, b[1..])
  }

  predicate DistinctIds(states: seq<StateSpec>) {
    forall i, j :: 0 <= i < j < |states| ==> states[i].id != states[j].id
  }

  /** Entry `j` is the first entry of its id, and its id is not in `known`. */
  predicate FirstNewAt(known: set<string>, states: seq<StateSpec>, j: int)
    requires 0 <= j < |states|
  {
    states[j].id !in known && forall i :: 0 <= i < j ==> states[i].id != states[j].id
  }

  /** Reference definition of what a batch creates: the entries `j` with
      `FirstNewAt(known, states, j)`, in input order. */
  function FirstNew(known: set<string>, states: seq<StateSpec>): seq<StateSpec>
    decreases |states|
  {
    if states == [] then []
    else
      var n := |states| - 1;
      FirstNew(known, states[..n]) + (if FirstNewAt(known, states, n) then [states[n]] else [])
  }

  /** Dropping the first entry moves its id into `known`. */
  lemma FirstNewAtShift(known: set<string>, states: seq<StateSpec>, j: int)
    requires 0 < j < |states|
    ensures FirstNewAt(known, states, j) <==> FirstNewAt(known + {states[0].id}, states[1..], j - 1)
  {
    var rest := states[1..];
    assert states[j] == rest[j - 1];
    if FirstNewAt(known + {states[0].id}, rest, j - 1) {
      forall i | 0 <= i < j ensures states[i].id != states[j].id {
        if i > 0 {
          assert states[i] == rest[i - 1];
        }
      }
    }
    if FirstNewAt(known, states, j) {
      forall i | 0 <= i < j - 1 ensures rest[i].id != rest[j - 1].id {
        assert rest[i] == states[i + 1];
      }
    }
  }

  /** The reference definition, read from the front. */
  lemma {:induction false} FirstNewCons(known: set<string>, states: seq<StateSpec>)
    requires states != []
    ensures FirstNew(known, states) ==
      (if states[0].id in known then [] else [states[0]]) + FirstNew(known + {states[0].id}, states[1..])
    decreases |states|
  {
    var s := states[0];
    var known' := known + {s.id};
    var head := if s.id in known then [] else [s];
    var n := |states| - 1;
    var rest := states[1..];
    if n == 0 {
      assert states[..0] == [] && rest == [];
    } else {
      var front := states[..n];
      assert front[0] == s && front[1..] == rest[..n - 1];
      FirstNewCons(known, front);
      FirstNewAtShift(known, states, n);
      assert rest[n - 1] == states[n];
      var last := if FirstNewAt(known, states, n) then [states[n]] else [];
      assert last == if FirstNewAt(known', rest, n - 1) then [rest[n - 1]] else [];
      assert FirstNew(known', rest) == FirstNew(known', rest[..n - 1]) + last;
      assert FirstNew(known, states) == (head + FirstNew(known', rest[..n - 1])) + last;
      assert (head + FirstNew(known', rest[..n - 1])) + last == head + (FirstNew(known', rest[..n - 1]) + last);
    }
  }

  /** What a batch creates keeps the input order. */
  lemma {:induction false} FirstNewOrder(known: set<string>, states: seq<StateSpec>)
    ensures IsSubsequence(FirstNew(known, states), states)
    decreases |states|
  {
    if states != [] {
      FirstNewCons(known, states);
      var rest := FirstNew(known + {states[0].id}, states[1..]);
      FirstNewOrder(known + {states[0].id}, states[1..]);
      if states[0].id !in known {
        assert ([states[0]] + rest)[1..] == rest;
      } else {
        assert [] + rest == rest;
      }
    }
  }

  /** What a batch creates covers exactly the ids of the batch not in `known`. */
  lemma {:induction false} FirstNewIds(known: set<string>, states: seq<StateSpec>)
    ensures Ids(FirstNew(known, states)) == Ids(states) - known
    decreases |states|
  {
    if states != [] {
      FirstNewCons(known, states);
      var rest := FirstNew(known + {states[0].id}, states[1..]);
      FirstNewIds(known + {states[0].id}, states[1..]);
      if states[0].id !in known {
        assert ([states[0]] + rest)[1..] == rest;
      } else {
        assert [] + rest == rest;
      }
    }
  }

  /** ... and holds each of them once. */
  lemma {:induction false} FirstNewDistinct(known: set<string>, states: seq<StateSpec>)
    ensures DistinctIds(FirstNew(known, states))
    decreases |states|
  {
    if states != [] {
      var s := states[0];
      FirstNewCons(known, states);
      var rest := FirstNew(known + {s.id}, states[1..]);
      FirstNewDistinct(known + {s.id}, states[1..]);
      if s.id !in known {
        FirstNewIds(known + {s.id}, states[1..]);
        IdsMembers(rest);
        var acc := [s] + rest;
        forall i, j | 0 <= i < j < |acc| ensures acc[i].id != acc[j].id {
          assert acc[j] == rest[j - 1];
          if i > 0 {
            assert acc[i] == rest[i - 1];
          }
        }
      } else {
        assert [] + rest == rest;
      }
    }
  }
}
