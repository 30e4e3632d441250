/**
 * The eligible-user options table of the dropdown: a PHP array from user ID
 * to the label "display name (email)", filled from the user query's results
 * and then sorted by label with `asort( ..., SORT_STRING )`.
 *
 * A PHP array is an ordered map; it is modelled as a sequence of entries in
 * array order whose keys are distinct.
 */
module UserOptions {

  import opened Wrappers
  import Php

  /** The `data` part of a WP_User: the fields the label is built from. */
  datatype UserData = UserData(displayName: string, userEmail: string)

  /** One element of the query's results; either part may be unset. */
  datatype QueryUser = QueryUser(id: Option<int>, data: Option<UserData>)

  /** One key => value pair of the table. */
  datatype Entry = Entry(id: int, name: string)

  /** The text of one option. */
  function Label(d: UserData): string
  {
    d.displayName + " (" + d.userEmail + ")"
  }

  /** `$table[$k] ?? null`: the label stored under key `k`. */
  function Lookup(t: seq<Entry>, k: int): Option<string>
  {
    if t == [] then None
    else if t[0].id == k then Some(t[0].name)
    else Lookup(t[1..], k)
  }

  /** No key occurs twice, as in every PHP array. */
  predicate Distinct(t: seq<Entry>)
  {
    t == [] || (Lookup(t[1..], t[0].id).None? && Distinct(t[1..]))
  }

  /**
   * `$table[$k] = $v`: an existing key keeps its position and gets the new
   * value; a new key is appended.
   */
  function Put(t: seq<Entry>, k: int, v: string): (r: seq<Entry>)
    ensures Lookup(r, k) == Some(v)
    ensures forall j :: j != k ==> Lookup(r, j) == Lookup(t, j)
    ensures Distinct(t) ==> Distinct(r)
    ensures Lookup(t, k).Some? ==> |r| == |t| && forall i :: 0 <= i < |t| ==> r[i].id == t[i].id
    ensures Lookup(t, k).None? ==> r == t + [Entry(k, v)]
  {
    if t == [] then [Entry(k, v)]
    else if t[0].id == k then [Entry(k, v)] + t[1..]
    else [t[0]] + Put(t[1..], k, v)
  }

  /** One iteration of the `foreach`: only a result with both an ID and data adds an entry. */
  function Step(t: seq<Entry>, u: QueryUser): seq<Entry>
  {
    if u.id.Some? && u.data.Some? then Put(t, u.id.value, Label(u.data.value)) else t
  }

  /** The table the `foreach` over the results leaves behind, before sorting. */
  function BuildOptions(rs: seq<QueryUser>): (t: seq<Entry>)
    ensures Distinct(t)
  {
    if rs == [] then [] else Step(BuildOptions(rs[..|rs| - 1]), rs[|rs| - 1])
  }

  /** Reference definition: the label of the LAST result with ID `k` and data. */
  function LastLabel(rs: seq<QueryUser>, k: int): Option<string>
  {
    if rs == [] then None
    else
      var u := rs[|rs| - 1];
      if u.id == Some(k) && u.data.Some? then Some(Label(u.data.value)) else LastLabel(rs[..|rs| - 1], k)
  }

  /** The built table maps each ID to the label of its last complete result, and nothing else. */
  lemma {:induction false} BuildOptionsLookup(rs: seq<QueryUser>, k: int)
    ensures Lookup(BuildOptions(rs), k) == LastLabel(rs, k)
  {
    if rs != [] {
      BuildOptionsLookup(rs[..|rs| - 1], k);
    }
  }

  /** Ascending by label under PHP's string comparison. */
  ghost predicate Sorted(t: seq<Entry>)
  {
    forall i, j :: 0 <= i < j < |t| ==> Php.StrLe(t[i].name, t[j].name)
  }

  /** Insert `e` before the first entry whose label is not smaller. */
  function Insert(e: Entry, s: seq<Entry>): (r: seq<Entry>)
    ensures |r| == |s| + 1
    ensures multiset(r) == multiset(s) + multiset{e}
  {
    if s == [] || Php.StrLe(e.name, s[0].name) then [e] + s
    else
      assert s == [s[0]] + s[1..];
      [s[0]] + Insert(e, s[1..])
  }

  /**
   * `asort( $table, SORT_STRING )`: a stable sort by label, keys staying
   * with their values.
   */
  function ASort(t: seq<Entry>): (r: seq<Entry>)
    ensures |r| == |t|
    ensures multiset(r) == multiset(t)
  {
    if t == [] then []
    else
      assert t == [t[0]] + t[1..];
      Insert(t[0], ASort(t[1..]))
  }

  lemma {:induction false} InsertSorted(e: Entry, s: seq<Entry>)
    requires Sorted(s)
    ensures Sorted(Insert(e, s))
  {
    if s == [] || Php.StrLe(e.name, s[0].name) {
      forall j | 0 <= j < |s|
        ensures Php.StrLe(e.name, s[j].name)
      {
        if j > 0 {
          Php.StrLeTransitive(e.name, s[0].name, s[j].name);
        }
      }
    } else {
      Php.StrLeTotal(e.name, s[0].name);
      InsertSorted(e, s[1..]);
      var r := Insert(e, s[1..]);
      forall i | 0 <= i < |r|
        ensures Php.StrLe(s[0].name, r[i].name)
      {
        assert r[i] in multiset(r);
        if r[i] != e {
          assert r[i] in multiset(s[1..]);
          var j :| 0 <= j < |s[1..]| && s[1..][j] == r[i];
          assert s[j + 1] == r[i];
        }
      }
    }
  }

  lemma {:induction false} ASortSorted(t: seq<Entry>)
    ensures Sorted(ASort(t))
  {
    if t != [] {
      ASortSorted(t[1..]);
      InsertSorted(t[0], ASort(t[1..]));
    }
  }

  lemma {:induction false} InsertLookup(e: Entry, s: seq<Entry>)
    requires Distinct(s) && Lookup(s, e.id).None?
    ensures Distinct(Insert(e, s))
    ensures forall k :: Lookup(Insert(e, s), k) == if k == e.id then Some(e.name) else Lookup(s, k)
  {
    if s != [] && !Php.StrLe(e.name, s[0].name) {
      InsertLookup(e, s[1..]);
    }
  }

  /** On a table with distinct keys, sorting keeps every key with its own value. */
  lemma {:induction false} ASortLookup(t: seq<Entry>)
    requires Distinct(t)
    ensures Distinct(ASort(t))
    ensures forall k :: Lookup(ASort(t), k) == Lookup(t, k)
  {
    if t != [] {
      ASortLookup(t[1..]);
      InsertLookup(t[0], ASort(t[1..]));
    }
  }

  /**
   * The options table for a non-empty query: ordered ascending by label,
   * every ID once, mapped to the label of its last complete result, and a
   * rearrangement of the table the loop built.
   */
  lemma OptionsTable(rs: seq<QueryUser>)
    ensures Sorted(ASort(BuildOptions(rs)))
    ensures Distinct(ASort(BuildOptions(rs)))
    ensures forall k :: Lookup(ASort(BuildOptions(rs)), k) == LastLabel(rs, k)
    ensures multiset(ASort(BuildOptions(rs))) == multiset(BuildOptions(rs))
  {
    ASortSorted(BuildOptions(rs));
    ASortLookup(BuildOptions(rs));
    forall k
      ensures Lookup(ASort(BuildOptions(rs)), k) == LastLabel(rs, k)
    {
      BuildOptionsLookup(rs, k);
    }
  }
}
