/** The slot order of a tensor batch. */
module SlotOrder {
  import opened Wrappers

  datatype Image<D> = Image(name: string, data: D)

  /** `slot` is None when the request carries no integer benchmark slot. */
  datatype Request<D> = Request(session: string, slot: Option<int>, images: seq<Image<D>>, instruction: string)

  predicate ValidSlots<D>(requests: seq<Request<D>>, capacity: nat) {
    forall i :: 0 <= i < |requests| ==> requests[i].slot.Some? && 0 <= requests[i].slot.value < capacity
  }

  predicate DistinctSlots<D>(requests: seq<Request<D>>) {
    forall i, j :: 0 <= i < j < |requests| ==> requests[i].slot != requests[j].slot
  }

  predicate DistinctSessions<D>(requests: seq<Request<D>>) {
    forall i, j :: 0 <= i < j < |requests| ==> requests[i].session != requests[j].session
  }

  function Key<D>(request: Request<D>): int {
    if request.slot.Some? then request.slot.value else 0
  }

  /** Inserts a row after the rows whose slot is not greater. */
  function InsertRow<D>(row: nat, rows: seq<nat>, requests: seq<Request<D>>): seq<nat>
    requires row < |requests| && forall k :: 0 <= k < |rows| ==> rows[k] < |requests|
  {
    if rows == [] then [row]
    else if Key(requests[row]) < Key(requests[rows[0]]) then [row] + rows
    else [rows[0]] + InsertRow(row, rows[1..], requests)
  }

  /** The first `n` rows in slot order, equal slots in arrival order. */
  function Order<D>(requests: seq<Request<D>>, n: nat): (rows: seq<nat>)
    requires n <= |requests|
    ensures |rows| == n && forall k :: 0 <= k < n ==> rows[k] < n
  {
    if n == 0 then [] else
      InsertFacts(n - 1, Order(requests, n - 1), requests);
      InsertRow(n - 1, Order(requests, n - 1), requests)
  }

  lemma {:induction false} InsertFacts<D>(row: nat, rows: seq<nat>, requests: seq<Request<D>>)
    requires row < |requests| && forall k :: 0 <= k < |rows| ==> rows[k] < row
    ensures var after := InsertRow(row, rows, requests);
            && |after| == |rows| + 1
            && (forall k :: 0 <= k < |after| ==> after[k] <= row)
            && row in after && (forall r :: r in rows ==> r in after)
  {
    if rows != [] && Key(requests[row]) >= Key(requests[rows[0]]) {
      InsertFacts(row, rows[1..], requests);
      assert rows == [rows[0]] + rows[1..];
    } else {
      assert InsertRow(row, rows, requests) == [row] + rows;
    }
  }

  ghost predicate Ascending<D>(rows: seq<nat>, requests: seq<Request<D>>)
    requires forall k :: 0 <= k < |rows| ==> rows[k] < |requests|
  {
    forall i, j :: 0 <= i < j < |rows| ==> Key(requests[rows[i]]) < Key(requests[rows[j]])
  }

  lemma {:induction false} InsertAscending<D>(row: nat, rows: seq<nat>, requests: seq<Request<D>>)
    requires row < |requests| && forall k :: 0 <= k < |rows| ==> rows[k] < row
    requires Ascending(rows, requests)
    requires forall k :: 0 <= k < |rows| ==> Key(requests[rows[k]]) != Key(requests[row])
    ensures forall k :: 0 <= k < |InsertRow(row, rows, requests)| ==> InsertRow(row, rows, requests)[k] < |requests|
    ensures Ascending(InsertRow(row, rows, requests), requests)
    ensures rows != [] && Key(requests[rows[0]]) < Key(requests[row]) ==> InsertRow(row, rows, requests)[0] == rows[0]
    ensures rows == [] || Key(requests[row]) < Key(requests[rows[0]]) ==> InsertRow(row, rows, requests)[0] == row
  {
    InsertFacts(row, rows, requests);
    if rows != [] && Key(requests[row]) >= Key(requests[rows[0]]) {
      InsertAscending(row, rows[1..], requests);
    }
  }

  lemma {:induction false} OrderComplete<D>(requests: seq<Request<D>>, n: nat)
    requires n <= |requests|
    ensures forall r: nat :: r < n ==> r in Order(requests, n)
  {
    if n > 0 {
      OrderComplete(requests, n - 1);
      InsertFacts(n - 1, Order(requests, n - 1), requests);
    }
  }

  lemma {:induction false} OrderAscending<D>(requests: seq<Request<D>>, n: nat, capacity: nat)
    requires n <= |requests| && ValidSlots(requests, capacity) && DistinctSlots(requests)
    ensures Ascending(Order(requests, n), requests)
  {
    if n > 0 {
      var rows := Order(requests, n - 1);
      OrderAscending(requests, n - 1, capacity);
      forall k | 0 <= k < |rows| ensures Key(requests[rows[k]]) != Key(requests[n - 1]) {
        assert requests[rows[k]].slot != requests[n - 1].slot;
      }
      InsertAscending(n - 1, rows, requests);
    }
  }

  /** The requests in slot order: the list the runtime sees. */
  function Ordered<D>(requests: seq<Request<D>>): (ordered: seq<Request<D>>)
    ensures |ordered| == |requests|
  {
    var rows := Order(requests, |requests|);
    seq(|rows|, k requires 0 <= k < |rows| => requests[rows[k]])
  }

  ghost predicate BySlot<D>(requests: seq<Request<D>>) {
    forall i, j :: 0 <= i < j < |requests| ==> Key(requests[i]) < Key(requests[j])
  }

  lemma OrderedFacts<D>(requests: seq<Request<D>>, capacity: nat)
    requires ValidSlots(requests, capacity) && DistinctSlots(requests)
    ensures BySlot(Ordered(requests))
    ensures forall q :: q in Ordered(requests) <==> q in requests
  {
    OrderComplete(requests, |requests|);
    OrderAscending(requests, |requests|, capacity);
    var rows := Order(requests, |requests|);
    forall q | q in requests ensures q in Ordered(requests) {
      var i: nat :| i < |requests| && requests[i] == q;
      assert i in rows;
      var k :| 0 <= k < |rows| && rows[k] == i;
      assert Ordered(requests)[k] == q;
    }
  }

  lemma {:induction false} SortedUnique<D>(xs: seq<Request<D>>, ys: seq<Request<D>>)
    requires BySlot(xs) && BySlot(ys) && |xs| == |ys| && forall q :: q in xs <==> q in ys
    ensures xs == ys
  {
    if xs != [] {
      assert xs[0] in ys;
      assert ys[0] in xs;
      assert xs[0] == ys[0];
      forall q | q in xs[1..] ensures q in ys[1..] {
        assert q in xs && q in ys;
      }
      forall q | q in ys[1..] ensures q in xs[1..] {
        assert q in ys && q in xs;
      }
      SortedUnique(xs[1..], ys[1..]);
    }
  }

  /** `p` lists every row below `n` exactly once. */
  ghost predicate IsPermutation(p: seq<nat>, n: nat) {
    && |p| == n && (forall i :: 0 <= i < n ==> p[i] < n)
    && (forall i, j :: 0 <= i < j < n ==> p[i] != p[j])
    && (forall r: nat :: r < n ==> r in p)
  }

  /** The same requests, arriving in the order `p`. */
  function Permuted<D>(requests: seq<Request<D>>, p: seq<nat>): seq<Request<D>>
    requires |p| == |requests| && forall i :: 0 <= i < |p| ==> p[i] < |requests|
  {
    seq(|p|, i requires 0 <= i < |p| => requests[p[i]])
  }

  lemma PermutedSame<D>(requests: seq<Request<D>>, p: seq<nat>)
    requires IsPermutation(p, |requests|)
    ensures forall q :: q in Permuted(requests, p) <==> q in requests
  {
    forall q | q in requests ensures q in Permuted(requests, p) {
      var i: nat :| i < |requests| && requests[i] == q;
      assert i in p;
      var k :| 0 <= k < |p| && p[k] == i;
      assert Permuted(requests, p)[k] == q;
    }
  }

  lemma PermutedValid<D>(requests: seq<Request<D>>, p: seq<nat>, capacity: nat)
    requires IsPermutation(p, |requests|)
    ensures ValidSlots(Permuted(requests, p), capacity) <==> ValidSlots(requests, capacity)
    ensures DistinctSlots(Permuted(requests, p)) <==> DistinctSlots(requests)
    ensures DistinctSessions(Permuted(requests, p)) <==> DistinctSessions(requests)
  {
    var permuted := Permuted(requests, p);
    if ValidSlots(permuted, capacity) {
      forall i | 0 <= i < |requests| ensures requests[i].slot.Some? && 0 <= requests[i].slot.value < capacity {
        assert i in p;
        var k :| 0 <= k < |p| && p[k] == i;
        assert permuted[k] == requests[i];
      }
    }
    forall i, j | 0 <= i < j < |requests|
      ensures DistinctSlots(permuted) ==> requests[i].slot != requests[j].slot
      ensures DistinctSessions(permuted) ==> requests[i].session != requests[j].session
    {
      assert i in p && j in p;
      var k :| 0 <= k < |p| && p[k] == i;
      var l :| 0 <= l < |p| && p[l] == j;
      assert permuted[k] == requests[i] && permuted[l] == requests[j] && k != l;
    }
  }

  /** Arrival order is irrelevant: permuted requests give the runtime the same list. */
  lemma ArrivalOrderIrrelevant<D>(requests: seq<Request<D>>, p: seq<nat>, capacity: nat)
    requires IsPermutation(p, |requests|) && ValidSlots(requests, capacity) && DistinctSlots(requests)
    ensures Ordered(Permuted(requests, p)) == Ordered(requests)
  {
    PermutedValid(requests, p, capacity);
    PermutedSame(requests, p);
    OrderedFacts(requests, capacity);
    OrderedFacts(Permuted(requests, p), capacity);
    SortedUnique(Ordered(Permuted(requests, p)), Ordered(requests));
  }
}
