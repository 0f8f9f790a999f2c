/** The roster diff one poll tick performs, as functions on the players'
    iteration order (a JavaScript Map iterates in insertion order) and on the
    names parsed from the `list` result. */
module Roster {
  import opened Values
  import opened Protocol

  /** The name that stands for senders that are not players; polling never evicts it. */
  const Sentinel: string := "外部"

  predicate Stays(name: string, snapshot: set<string>)
  {
    name == Sentinel || name in snapshot
  }

  /** Known players that survive the tick, in their order. */
  function Kept(order: seq<string>, snapshot: set<string>): seq<string>
  {
    if order == [] then []
    else
      var last := order[|order| - 1];
      Kept(order[..|order| - 1], snapshot) + (if Stays(last, snapshot) then [last] else [])
  }

  /** Known players that leave, in the order their `leave` events are emitted. */
  function Departed(order: seq<string>, snapshot: set<string>): seq<string>
  {
    if order == [] then []
    else
      var last := order[|order| - 1];
      Departed(order[..|order| - 1], snapshot) + (if Stays(last, snapshot) then [] else [last])
  }

  /** Listed names not yet known, first occurrences only, in listing order. */
  function Arrivals(names: seq<string>, known: set<string>): seq<string>
  {
    if names == [] then []
    else
      var prev := Arrivals(names[..|names| - 1], known);
      var last := names[|names| - 1];
      if last in known || last in prev then prev else prev + [last]
  }

  /** The players' order after a tick that listed `names`. */
  function NextOrder(order: seq<string>, names: seq<string>): seq<string>
  {
    var kept := Kept(order, Elems(names));
    kept + Arrivals(names, Elems(kept))
  }

  function LeaveEvents(names: seq<string>): seq<Event>
  {
    seq(|names|, i requires 0 <= i < |names| => Left(names[i]))
  }

  function JoinEvents(names: seq<string>): seq<Event>
  {
    seq(|names|, i requires 0 <= i < |names| => Joined(names[i]))
  }

  lemma LeaveEventsSnoc(names: seq<string>, name: string)
    ensures LeaveEvents(names + [name]) == LeaveEvents(names) + [Left(name)]
  {
  }

  lemma JoinEventsSnoc(names: seq<string>, name: string)
    ensures JoinEvents(names + [name]) == JoinEvents(names) + [Joined(name)]
  {
  }

  /** The events a tick that listed `names` emits: every `leave`, then every `join`. */
  function TickEvents(order: seq<string>, names: seq<string>): seq<Event>
  {
    var snapshot := Elems(names);
    LeaveEvents(Departed(order, snapshot)) + JoinEvents(Arrivals(names, Elems(Kept(order, snapshot))))
  }

  lemma ElemsSnoc<T>(s: seq<T>, x: T)
    ensures Elems(s + [x]) == Elems(s) + {x}
  {
  }

  lemma ElemsAppend<T>(s: seq<T>, t: seq<T>)
    ensures Elems(s + t) == Elems(s) + Elems(t)
  {
  }

  lemma DistinctInit<T>(s: seq<T>)
    requires Distinct(s) && s != []
    ensures Distinct(s[..|s| - 1]) && s[|s| - 1] !in s[..|s| - 1]
  {
    var init := s[..|s| - 1];
    forall i, j | 0 <= i < j < |init| ensures init[i] != init[j] {
      assert init[i] == s[i] && init[j] == s[j];
    }
    forall i | 0 <= i < |init| ensures init[i] != s[|s| - 1] {
      assert init[i] == s[i];
    }
  }

  lemma DistinctSnoc<T>(s: seq<T>, x: T)
    requires Distinct(s) && x !in s
    ensures Distinct(s + [x])
  {
    var t := s + [x];
    forall i, j | 0 <= i < j < |t| ensures t[i] != t[j] {
      if j == |s| {
        assert t[i] == s[i];
      } else {
        assert t[i] == s[i] && t[j] == s[j];
      }
    }
  }

  lemma {:induction false} KeptElems(order: seq<string>, snapshot: set<string>)
    ensures Elems(Kept(order, snapshot)) == set n | n in order && Stays(n, snapshot)
    ensures Distinct(order) ==> Distinct(Kept(order, snapshot))
  {
    if order != [] {
      var init, last := order[..|order| - 1], order[|order| - 1];
      assert order == init + [last];
      KeptElems(init, snapshot);
      var k := Kept(init, snapshot);
      ElemsSnoc(k, last);
      ElemsSnoc(init, last);
      assert (set n | n in order && Stays(n, snapshot))
        == (set n | n in init && Stays(n, snapshot)) + (if Stays(last, snapshot) then {last} else {});
      if Distinct(order) {
        DistinctInit(order);
        assert last !in Elems(k);
        DistinctSnoc(k, last);
      }
    }
  }

  lemma {:induction false} DepartedElems(order: seq<string>, snapshot: set<string>)
    ensures Elems(Departed(order, snapshot)) == set n | n in order && !Stays(n, snapshot)
    ensures Distinct(order) ==> Distinct(Departed(order, snapshot))
  {
    if order != [] {
      var init, last := order[..|order| - 1], order[|order| - 1];
      assert order == init + [last];
      DepartedElems(init, snapshot);
      var d := Departed(init, snapshot);
      ElemsSnoc(d, last);
      ElemsSnoc(init, last);
      assert (set n | n in order && !Stays(n, snapshot))
        == (set n | n in init && !Stays(n, snapshot)) + (if Stays(last, snapshot) then {} else {last});
      if Distinct(order) {
        DistinctInit(order);
        assert last !in Elems(d);
        DistinctSnoc(d, last);
      }
    }
  }

  lemma {:induction false} ArrivalsElems(names: seq<string>, known: set<string>)
    ensures Elems(Arrivals(names, known)) == Elems(names) - known
    ensures Distinct(Arrivals(names, known))
  {
    if names != [] {
      var init, last := names[..|names| - 1], names[|names| - 1];
      assert names == init + [last];
      ArrivalsElems(init, known);
      var prev := Arrivals(init, known);
      ElemsSnoc(prev, last);
      ElemsSnoc(init, last);
      if !(last in known || last in prev) {
        DistinctSnoc(prev, last);
      }
    }
  }

  /** How the tick's first loop extends its results by the `i`-th known name. */
  lemma EvictStep(order: seq<string>, i: nat, snapshot: set<string>)
    requires i < |order|
    ensures Kept(order[..i + 1], snapshot)
      == Kept(order[..i], snapshot) + (if Stays(order[i], snapshot) then [order[i]] else [])
    ensures Departed(order[..i + 1], snapshot)
      == Departed(order[..i], snapshot) + (if Stays(order[i], snapshot) then [] else [order[i]])
  {
    assert order[..i + 1][..i] == order[..i];
  }

  /** How the tick's second loop extends its arrivals by the `j`-th listed name. */
  lemma AdmitStep(names: seq<string>, j: nat, known: set<string>)
    requires j < |names|
    ensures var prev := Arrivals(names[..j], known);
      Arrivals(names[..j + 1], known)
        == if names[j] in known || names[j] in prev then prev else prev + [names[j]]
  {
    assert names[..j + 1][..j] == names[..j];
  }

  /** One tick takes roster P to {n in P | n is the sentinel or listed} plus the
      listed names, with no name twice. */
  lemma TickRoster(order: seq<string>, names: seq<string>)
    requires Distinct(order)
    ensures Distinct(NextOrder(order, names))
    ensures Elems(NextOrder(order, names))
      == (set n | n in order && (n == Sentinel || n in names)) + Elems(names)
  {
    var snapshot := Elems(names);
    var kept := Kept(order, snapshot);
    KeptElems(order, snapshot);
    ArrivalsElems(names, Elems(kept));
    var arrivals := Arrivals(names, Elems(kept));
    var next := kept + arrivals;
    ElemsAppend(kept, arrivals);
    assert Elems(next) == (set n | n in order && Stays(n, snapshot)) + (snapshot - Elems(kept));
    forall i, j | 0 <= i < j < |next| ensures next[i] != next[j] {
      if i < |kept| && j >= |kept| {
        assert next[i] in Elems(kept);
        assert next[j] in Elems(arrivals);
      }
    }
  }

  /** A tick emits `leave` exactly for the known non-sentinel names that are
      not listed, and `join` exactly for the listed names that were not known,
      each at most once. */
  lemma TickEventsExactly(order: seq<string>, names: seq<string>)
    requires Distinct(order)
    ensures var leaves := Departed(order, Elems(names));
      Distinct(leaves) &&
      Elems(leaves) == (set n | n in order && n !in names) - {Sentinel}
    ensures var joins := Arrivals(names, Elems(Kept(order, Elems(names))));
      Distinct(joins) &&
      Elems(joins) == (set n | n in names && n !in order)
  {
    var snapshot := Elems(names);
    DepartedElems(order, snapshot);
    KeptElems(order, snapshot);
    ArrivalsElems(names, Elems(Kept(order, snapshot)));
  }

  /** A listing of nobody (a non-zero or timed-out status, or no `players`)
      evicts every known player except the sentinel. */
  lemma EmptyListingEvicts(order: seq<string>)
    requires Distinct(order)
    ensures Elems(NextOrder(order, [])) == Elems(order) * {Sentinel}
    ensures Elems(Departed(order, {})) == Elems(order) - {Sentinel}
  {
    TickRoster(order, []);
    DepartedElems(order, {});
  }

  /** Roster [A, B] followed by a listing of [B, C], for any three distinct
      names with A not the sentinel, becomes [B, C] and emits only `leave(A)`
      and `join(C)`. */
  lemma TickExample(a: string, b: string, c: string)
    requires a != b && b != c && a != c && a != Sentinel
    ensures NextOrder([a, b], [b, c]) == [b, c]
    ensures TickEvents([a, b], [b, c]) == [Left(a), Joined(c)]
  {
    var snapshot := Elems([b, c]);
    assert a !in snapshot && b in snapshot && a != Sentinel;
    assert [a, b][..1] == [a];
    assert [a][..0] == [];
    assert Kept([a], snapshot) == [];
    assert Kept([a, b], snapshot) == [b];
    assert Departed([a], snapshot) == [a];
    assert Departed([a, b], snapshot) == [a];
    assert Elems([b]) == {b};
    assert [b, c][..1] == [b];
    assert [b][..0] == [];
    assert Arrivals([b], {b}) == [];
    assert Arrivals([b, c], {b}) == [c];
    assert LeaveEvents([a]) == [Left(a)];
    assert JoinEvents([c]) == [Joined(c)];
  }
}
