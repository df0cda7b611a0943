/** The document store as a sequence of keyed entries: key lookup, upsert
    (`repo[key] = doc`), and the score query the backend issues, which selects
    the score documents of one player (optionally restricted to some round
    numbers) and sorts them by creation time, newest first. */
module Store {
  import opened Records

  /** No key occurs twice: the store behaves as a dictionary. */
  predicate KeysDistinct(s: seq<Entry>) {
    forall i, j :: 0 <= i < j < |s| ==> s[i].key != s[j].key
  }

  /** The position of `key` in the store, if it is there. */
  function Find(s: seq<Entry>, key: string): (r: Option<nat>)
    ensures r.Some? ==> r.value < |s| && s[r.value].key == key
    ensures r.None? <==> forall i :: 0 <= i < |s| ==> s[i].key != key
  {
    if s == [] then None
    else if s[0].key == key then Some(0)
    else match Find(s[1..], key)
      case None => None
      case Some(i) => Some(i + 1)
  }

  /** `repo[key]`: the document under `key`, or None for a missing key. */
  function Lookup(s: seq<Entry>, key: string): Option<Doc> {
    match Find(s, key)
    case None => None
    case Some(i) => Some(s[i].doc)
  }

  /** With distinct keys, an entry's key leads back to exactly that entry. */
  lemma {:induction false} FindUnique(s: seq<Entry>, i: nat)
    requires KeysDistinct(s) && i < |s|
    ensures Find(s, s[i].key) == Some(i)
  {
    if i > 0 {
      assert s[1..][i - 1] == s[i];
      assert KeysDistinct(s[1..]) by {
        forall a, b | 0 <= a < b < |s[1..]| ensures s[1..][a].key != s[1..][b].key {
          assert s[1..][a] == s[a + 1] && s[1..][b] == s[b + 1];
        }
      }
      FindUnique(s[1..], i - 1);
    }
  }

  /** `repo[key] = doc`: replaces the entry under `key`, or adds one at the end. */
  function Upsert(s: seq<Entry>, key: string, doc: Doc): (r: seq<Entry>)
    requires KeysDistinct(s)
    ensures KeysDistinct(r)
    ensures Lookup(r, key) == Some(doc)
    ensures forall k :: k != key ==> Lookup(r, k) == Lookup(s, k)
    ensures forall i :: 0 <= i < |s| && s[i].key != key ==> i < |r| && r[i] == s[i]
    ensures |r| == if Find(s, key).Some? then |s| else |s| + 1
  {
    var r := match Find(s, key)
      case None => s + [Entry(key, doc)]
      case Some(j) => s[j := Entry(key, doc)];
    UpsertLookup(s, key, doc, r);
    r
  }

  /** The lookups the upsert promises, shown for either place of the entry. */
  lemma UpsertLookup(s: seq<Entry>, key: string, doc: Doc, r: seq<Entry>)
    requires KeysDistinct(s)
    requires r == match Find(s, key)
      case None => s + [Entry(key, doc)]
      case Some(j) => s[j := Entry(key, doc)]
    ensures KeysDistinct(r)
    ensures Lookup(r, key) == Some(doc)
    ensures forall k :: k != key ==> Lookup(r, k) == Lookup(s, k)
  {
    var j := if Find(s, key).Some? then Find(s, key).value else |s|;
    assert r[j] == Entry(key, doc);
    FindUnique(r, j);
    forall k | k != key ensures Lookup(r, k) == Lookup(s, k) {
      if Find(s, k).Some? {
        var i := Find(s, k).value;
        assert r[i] == s[i];
        FindUnique(r, i);
      }
    }
  }

  /** An appended entry is found under its key, and every other key still
      leads where it led before. */
  lemma LookupAppend(s: seq<Entry>, e: Entry, k: string)
    requires KeysDistinct(s + [e])
    ensures Lookup(s + [e], k) == if k == e.key then Some(e.doc) else Lookup(s, k)
  {
    var t := s + [e];
    if k == e.key {
      FindUnique(t, |s|);
    } else if Find(s, k).Some? {
      var i := Find(s, k).value;
      assert t[i] == s[i];
      FindUnique(t, i);
    } else {
      assert forall i :: 0 <= i < |t| ==> t[i].key != k by {
        assert forall i :: 0 <= i < |s| ==> t[i] == s[i];
      }
    }
  }

  /** Which score records a query selects besides the player. */
  datatype RoundFilter = AnyRound | RoundIn(rounds: set<int>)

  /** The selector `{player_id: player, ai_score: {$exists: true}, rounds: ...}`. */
  predicate Selects(f: RoundFilter, player: string, r: ScoreRecord) {
    r.playerId == player && (f.AnyRound? || r.rounds in f.rounds)
  }

  /** The score records the selector picks, in store order. */
  function Selected(s: seq<Entry>, player: string, f: RoundFilter): seq<ScoreRecord> {
    if s == [] then []
    else
      var rest := Selected(s[..|s| - 1], player, f);
      var d := s[|s| - 1].doc;
      if d.Score? && Selects(f, player, d.score) then rest + [d.score] else rest
  }

  /** A query selects the score documents that match its selector, and only those. */
  lemma {:induction false} SelectedSpec(s: seq<Entry>, player: string, f: RoundFilter)
    ensures |Selected(s, player, f)| <= |s|
    ensures forall x :: x in Selected(s, player, f) ==> Selects(f, player, x)
    ensures forall x :: x in Selected(s, player, f) ==> exists i :: 0 <= i < |s| && s[i].doc == Score(x)
    ensures forall i :: 0 <= i < |s| && s[i].doc.Score? && Selects(f, player, s[i].doc.score) ==>
              s[i].doc.score in Selected(s, player, f)
  {
    if s != [] {
      var n := |s| - 1;
      SelectedSpec(s[..n], player, f);
      assert forall i :: 0 <= i < n ==> s[..n][i] == s[i];
    }
  }

  /** Adding one entry adds its score record to every query that selects it. */
  lemma SelectedAppend(s: seq<Entry>, e: Entry, player: string, f: RoundFilter)
    ensures Selected(s + [e], player, f) ==
            Selected(s, player, f) + (if e.doc.Score? && Selects(f, player, e.doc.score) then [e.doc.score] else [])
  {
    assert (s + [e])[..|s|] == s;
  }

  /** Overwriting a document that is not a score with another that is not a
      score leaves every score query as it was. */
  lemma {:induction false} SelectedOverwrite(s: seq<Entry>, j: nat, e: Entry, player: string, f: RoundFilter)
    requires j < |s| && !s[j].doc.Score? && !e.doc.Score?
    ensures Selected(s[j := e], player, f) == Selected(s, player, f)
  {
    var n := |s| - 1;
    assert s[j := e][..n] == if j < n then s[..n][j := e] else s[..n];
    if j < n {
      SelectedOverwrite(s[..n], j, e, player, f);
    }
  }

  /** Writing a document that is not a score under a key that holds no score
      leaves every score query as it was. */
  lemma SelectedUpsert(s: seq<Entry>, key: string, doc: Doc, player: string, f: RoundFilter)
    requires KeysDistinct(s) && !doc.Score?
    requires Lookup(s, key).None? || !Lookup(s, key).value.Score?
    ensures Selected(Upsert(s, key, doc), player, f) == Selected(s, player, f)
  {
    match Find(s, key)
    case None => SelectedAppend(s, Entry(key, doc), player, f);
    case Some(j) => SelectedOverwrite(s, j, Entry(key, doc), player, f);
  }

  /** Sorted by `created_at`, descending. */
  predicate NewestFirst(q: seq<ScoreRecord>) {
    forall i, j :: 0 <= i < j < |q| ==> q[i].createdAt >= q[j].createdAt
  }

  /** Inserts `x` before the first record that is strictly older. */
  function Insert(x: ScoreRecord, q: seq<ScoreRecord>): seq<ScoreRecord> {
    if q == [] || x.createdAt >= q[0].createdAt then [x] + q
    else [q[0]] + Insert(x, q[1..])
  }

  /** Inserting into a newest-first list keeps it newest first and adds `x`. */
  lemma {:induction false} InsertSpec(x: ScoreRecord, q: seq<ScoreRecord>)
    requires NewestFirst(q)
    ensures NewestFirst(Insert(x, q))
    ensures multiset(Insert(x, q)) == multiset(q) + multiset{x}
    ensures forall k :: 0 <= k < |Insert(x, q)| ==> Insert(x, q)[k] == x || Insert(x, q)[k] in q
  {
    if q == [] || x.createdAt >= q[0].createdAt {
      PrependNewest(x, q);
    } else {
      var t := Insert(x, q[1..]);
      InsertSpec(x, q[1..]);
      assert q == [q[0]] + q[1..];
      PrependNewest(q[0], t);
      assert Insert(x, q) == [q[0]] + t;
    }
  }

  /** A record at least as new as every record of a newest-first list may go in front. */
  lemma PrependNewest(h: ScoreRecord, t: seq<ScoreRecord>)
    requires NewestFirst(t)
    requires forall k :: 0 <= k < |t| ==> h.createdAt >= t[k].createdAt
    ensures NewestFirst([h] + t)
  {
    forall i, j | 0 <= i < j < |[h] + t| ensures ([h] + t)[i].createdAt >= ([h] + t)[j].createdAt {
      if i > 0 { assert ([h] + t)[i] == t[i - 1]; }
      assert ([h] + t)[j] == t[j - 1];
    }
  }

  /** The sort step of a query. Records with equal timestamps keep the
      store's order. */
  function SortNewestFirst(s: seq<ScoreRecord>): seq<ScoreRecord> {
    if s == [] then [] else Insert(s[0], SortNewestFirst(s[1..]))
  }

  /** The sort yields a newest-first permutation of its input. */
  lemma {:induction false} SortSpec(s: seq<ScoreRecord>)
    ensures NewestFirst(SortNewestFirst(s))
    ensures multiset(SortNewestFirst(s)) == multiset(s)
  {
    if s != [] {
      SortSpec(s[1..]);
      InsertSpec(s[0], SortNewestFirst(s[1..]));
      assert s == [s[0]] + s[1..];
    }
  }

  /** `repo.database.find(query)`: the selected score records, newest first. */
  function Query(s: seq<Entry>, player: string, f: RoundFilter): seq<ScoreRecord> {
    SortNewestFirst(Selected(s, player, f))
  }

  /** A query returns exactly the selected records, newest first, and its
      first record is at least as new as every selected one. */
  lemma QueryIsSortedSelection(s: seq<Entry>, player: string, f: RoundFilter)
    ensures NewestFirst(Query(s, player, f))
    ensures |Query(s, player, f)| == |Selected(s, player, f)|
    ensures forall x :: x in Query(s, player, f) <==> x in Selected(s, player, f)
    ensures Query(s, player, f) != [] ==>
              forall x :: x in Selected(s, player, f) ==> x.createdAt <= Query(s, player, f)[0].createdAt
  {
    var sel, q := Selected(s, player, f), Query(s, player, f);
    SelectedSpec(s, player, f);
    SortSpec(sel);
    assert |multiset(q)| == |multiset(sel)|;
    assert forall x :: x in q <==> x in multiset(q);
    forall x | x in sel && q != [] ensures x.createdAt <= q[0].createdAt {
      assert x in multiset(q);
      var i :| 0 <= i < |q| && q[i] == x;
      if i > 0 { assert q[0].createdAt >= q[i].createdAt; }
    }
  }
}
