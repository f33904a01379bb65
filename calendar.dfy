/** Calendar entries as the IFPA API returns them, and the two list
    transformations both versions of the client apply to them: keeping the
    entries of one state, and indexing entries by an id field. */
module Calendar {
  import opened JsValues

  /** One calendar record. Only the fields the client reads are named; every
      other field of the JSON object travels along unchanged in `details`.
      A field the record lacks is `Undefined`. */
  datatype Entry = Entry(tournamentId: Value, calendarId: Value, state: Value, details: map<string, Value>)

  /** Which id field a dictionary is keyed by. */
  datatype IdField = TournamentId | CalendarId

  function Id(e: Entry, field: IdField): Value {
    match field
    case TournamentId => e.tournamentId
    case CalendarId => e.calendarId
  }

  function IdsOf(s: seq<Entry>, field: IdField): set<Value> {
    set e | e in s :: Id(e, field)
  }

  predicate DistinctIds(s: seq<Entry>, field: IdField) {
    forall i, j :: 0 <= i < j < |s| ==> Id(s[i], field) != Id(s[j], field)
  }

  /** The entries of `s` whose state equals `state`, in their original order. */
  function FilterByState(s: seq<Entry>, state: Value): (r: seq<Entry>)
    ensures |r| <= |s|
  {
    if s == [] then []
    else
      var init, last := s[..|s| - 1], s[|s| - 1];
      FilterByState(init, state) + (if last.state == state then [last] else [])
  }

  /** An entry is kept exactly when it occurs in the list with that state. */
  lemma {:induction false} FilterByStateMembers(s: seq<Entry>, state: Value)
    ensures forall e :: e in FilterByState(s, state) <==> e in s && e.state == state
  {
    if s != [] {
      var init, last := s[..|s| - 1], s[|s| - 1];
      assert s == init + [last];
      FilterByStateMembers(init, state);
    }
  }

  /** The positions of `s` holding an entry of state `state`, in increasing order. */
  function MatchingPositions(s: seq<Entry>, state: Value): (ps: seq<nat>)
    ensures forall k :: 0 <= k < |ps| ==> ps[k] < |s| && s[ps[k]].state == state
    ensures forall k, l :: 0 <= k < l < |ps| ==> ps[k] < ps[l]
    ensures forall i :: 0 <= i < |s| && s[i].state == state ==> i in ps
  {
    if s == [] then []
    else
      var init := s[..|s| - 1];
      MatchingPositions(init, state) + (if s[|s| - 1].state == state then [|s| - 1] else [])
  }

  /** Filtering picks exactly the entries at the matching positions, in order:
      it is the subsequence of `s` made of the entries of that state. */
  lemma {:induction false} FilterIsMatchingSubsequence(s: seq<Entry>, state: Value)
    ensures |FilterByState(s, state)| == |MatchingPositions(s, state)|
    ensures forall k :: 0 <= k < |FilterByState(s, state)| ==>
      FilterByState(s, state)[k] == s[MatchingPositions(s, state)[k]]
  {
    if s != [] {
      var init := s[..|s| - 1];
      FilterIsMatchingSubsequence(init, state);
    }
  }

  /** Filtering a concatenation filters each part: relative order is kept. */
  lemma {:induction false} FilterAppend(a: seq<Entry>, b: seq<Entry>, state: Value)
    ensures FilterByState(a + b, state) == FilterByState(a, state) + FilterByState(b, state)
  {
    if b == [] {
      assert a + b == a;
    } else {
      var init, last := b[..|b| - 1], b[|b| - 1];
      var tail := if last.state == state then [last] else [];
      assert (a + b)[..|a + b| - 1] == a + init;
      assert (a + b)[|a + b| - 1] == last;
      assert FilterByState(a + b, state) == FilterByState(a + init, state) + tail;
      FilterAppend(a, init, state);
      assert FilterByState(b, state) == FilterByState(init, state) + tail;
    }
  }

  /** The entries a state filter selects: a copy of the whole list when the
      filter value is falsy, otherwise the entries of that state. */
  function SelectByState(s: seq<Entry>, state: Value): (r: seq<Entry>)
    ensures !Truthy(state) ==> r == s
    ensures |r| <= |s|
  {
    if Truthy(state) then FilterByState(s, state) else s
  }

  /** An entry is selected exactly when it occurs in the list and passes the filter. */
  lemma SelectByStateMembers(s: seq<Entry>, state: Value)
    ensures forall e :: e in SelectByState(s, state) <==> e in s && (!Truthy(state) || e.state == state)
  {
    FilterByStateMembers(s, state);
  }

  /** Selecting from a list extended by one entry extends the selection by
      that entry exactly when the entry is selected. */
  lemma SelectByStateSnoc(s: seq<Entry>, e: Entry, state: Value)
    ensures SelectByState(s + [e], state) ==
      SelectByState(s, state) + (if !Truthy(state) || e.state == state then [e] else [])
  {
    assert (s + [e])[..|s + [e]| - 1] == s;
  }

  /** The dictionary obtained by visiting `s` in order and storing each entry
      under its id; an entry replaces any earlier one with the same id. */
  function IndexBy(s: seq<Entry>, field: IdField): (r: map<Value, Entry>)
    ensures r.Keys == IdsOf(s, field)
    ensures forall k :: k in r ==> r[k] in s && Id(r[k], field) == k
  {
    if s == [] then map[]
    else
      var init, last := s[..|s| - 1], s[|s| - 1];
      assert s == init + [last];
      IndexBy(init, field)[Id(last, field) := last]
  }

  /** Indexing a list extended by one entry stores that entry under its id. */
  lemma IndexBySnoc(s: seq<Entry>, e: Entry, field: IdField)
    ensures IndexBy(s + [e], field) == IndexBy(s, field)[Id(e, field) := e]
  {
    assert (s + [e])[..|s + [e]| - 1] == s;
  }

  /** Last write wins: an entry that no later entry shares its id with is the
      one the dictionary holds under that id. */
  lemma {:induction false} IndexByLastWriteWins(s: seq<Entry>, field: IdField, i: nat)
    requires i < |s|
    requires forall j :: i < j < |s| ==> Id(s[j], field) != Id(s[i], field)
    ensures Id(s[i], field) in IndexBy(s, field)
    ensures IndexBy(s, field)[Id(s[i], field)] == s[i]
  {
    if i < |s| - 1 {
      var init := s[..|s| - 1];
      IndexByLastWriteWins(init, field, i);
    }
  }

  /** Appending an entry keeps ids distinct exactly when its id is new. */
  lemma DistinctIdsSnoc(init: seq<Entry>, last: Entry, field: IdField)
    ensures DistinctIds(init + [last], field) <==> DistinctIds(init, field) && Id(last, field) !in IdsOf(init, field)
  {
    var s := init + [last];
    if Id(last, field) in IdsOf(init, field) {
      var e :| e in init && Id(e, field) == Id(last, field);
      var j :| 0 <= j < |init| && init[j] == e;
      assert s[j] == e && s[|s| - 1] == last;
    }
    if DistinctIds(s, field) {
      forall i, j | 0 <= i < j < |init| ensures Id(init[i], field) != Id(init[j], field) {
        assert s[i] == init[i] && s[j] == init[j];
      }
    }
    if DistinctIds(init, field) && Id(last, field) !in IdsOf(init, field) {
      forall i, j | 0 <= i < j < |s| ensures Id(s[i], field) != Id(s[j], field) {
        assert s[i] == init[i];
        if j == |s| - 1 {
          assert Id(init[i], field) in IdsOf(init, field);
        } else {
          assert s[j] == init[j];
        }
      }
    }
  }

  /** The dictionary never has more keys than the list has entries, and has
      exactly as many when, and only when, no id repeats. */
  lemma {:induction false} IndexBySize(s: seq<Entry>, field: IdField)
    ensures |IndexBy(s, field)| <= |s|
    ensures |IndexBy(s, field)| == |s| <==> DistinctIds(s, field)
  {
    if s != [] {
      var init, last := s[..|s| - 1], s[|s| - 1];
      assert s == init + [last];
      var m, k := IndexBy(init, field), Id(last, field);
      IndexBySize(init, field);
      DistinctIdsSnoc(init, last, field);
      assert IndexBy(s, field) == m[k := last];
      if k in m {
        assert |m[k := last]| == |m|;
      } else {
        assert |m[k := last]| == |m| + 1;
      }
    }
  }
}
