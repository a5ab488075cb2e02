/** The pure side of the KataGo service: the vertex normalisation, the
    analysis request, and the helpers that read KataGo's JSON answer (best
    candidate, ownership, the top three candidates).  A parsed JSON value
    is a `Json`; `Field` is JavaScript's `o?.key`, `Coalesce` is `??`. */
module Katago {
  import opened Opt
  import opened Text

  /** A parsed JSON value; numbers are reals. */
  datatype Json =
    | JNull
    | JBool(b: bool)
    | JNum(n: real)
    | JStr(s: string)
    | JArr(items: seq<Json>)
    | JObj(fields: map<string, Json>)

  /** `o?.key`: undefined (None) unless o is an object holding key. */
  function Field(o: Option<Json>, key: string): (r: Option<Json>)
    ensures r.Some? <==> o.Some? && o.value.JObj? && key in o.value.fields
    ensures r.Some? ==> r.value == o.value.fields[key]
  {
    if o.Some? && o.value.JObj? && key in o.value.fields then Some(o.value.fields[key]) else None
  }

  /** null or undefined. */
  predicate Nullish(v: Option<Json>) {
    v.None? || v.value.JNull?
  }

  /** JavaScript truthiness: false for `undefined`, `null`, `false`, `0` and
      `""`, true for everything else (a `real` is never NaN). */
  predicate Truthy(v: Option<Json>) {
    v.Some? &&
    match v.value
      case JNull => false
      case JBool(b) => b
      case JNum(n) => n != 0.0
      case JStr(t) => t != []
      case _ => true
  }

  /** `a ?? b`. */
  function Coalesce(a: Option<Json>, b: Option<Json>): (r: Option<Json>)
    ensures !Nullish(a) ==> r == a
    ensures Nullish(a) ==> r == b
  {
    if Nullish(a) then b else a
  }

  /** `typeof v === 'number' ? v : d`. */
  function NumberOr(v: Option<Json>, d: real): (r: real)
    ensures (v.Some? && v.value.JNum?) ==> r == v.value.n
    ensures !(v.Some? && v.value.JNum?) ==> r == d
  {
    if v.Some? && v.value.JNum? then v.value.n else d
  }

  /** `(v ?? d).toUpperCase()` for a string-valued field. */
  function UpperOr(v: Option<Json>, d: string): string {
    if v.Some? && v.value.JStr? then ToUpper(v.value.s) else ToUpper(d)
  }

  // ----- vertices -----

  /** `normalizeKGS`: trimmed and upper-cased. */
  function NormalizeKGS(s: string): string {
    ToUpper(Trim(s))
  }

  /** Upper-casing keeps a trimmed string trimmed. */
  lemma UpperKeepsTrimmed(t: string)
    requires Trimmed(t)
    ensures Trimmed(ToUpper(t))
  {
    ToUpperIdempotent(t);
  }

  /** A normalized vertex has no white space at its ends and no lower-case
      letter, and normalizing it again changes nothing. */
  lemma NormalizeKGSIdempotent(s: string)
    ensures Trimmed(NormalizeKGS(s))
    ensures forall i :: 0 <= i < |NormalizeKGS(s)| ==> !('a' <= NormalizeKGS(s)[i] <= 'z')
    ensures NormalizeKGS(NormalizeKGS(s)) == NormalizeKGS(s)
  {
    var t := Trim(s);
    TrimSpec(s);
    UpperKeepsTrimmed(t);
    var u := ToUpper(t);
    TrimOfTrimmed(u);
    ToUpperIdempotent(t);
  }

  // ----- requests -----

  datatype Side = B | W {
    function Other(): (o: Side)
      ensures o != this
    {
      if this == B then W else B
    }

    function Text(): string {
      if this == B then "b" else "w"
    }
  }

  /** One history entry, `[color, vertex]`. */
  function MoveJson(m: (Side, string)): Json {
    JArr([JStr(m.0.Text()), JStr(m.1)])
  }

  /** The analysis request of `analyzePosition` for a history: Chinese rules,
      komi 7.5, a 19 x 19 board, 180 visits, ownership and policy, and the
      position after the last move. */
  function AnalysisRequest(moves: seq<(Side, string)>): (r: map<string, Json>)
    ensures "id" !in r
    ensures r.Keys == {"rules", "komi", "boardXSize", "boardYSize", "moves", "analyzeTurns", "maxVisits", "includeOwnership", "includePolicy"}
    ensures r["analyzeTurns"] == JArr([JNum(|moves| as real)])
    ensures r["moves"].JArr? && |r["moves"].items| == |moves| &&
      forall i :: 0 <= i < |moves| ==> r["moves"].items[i] == JArr([JStr(moves[i].0.Text()), JStr(moves[i].1)])
  {
    map[
      "rules" := JStr("chinese"),
      "komi" := JNum(7.5),
      "boardXSize" := JNum(19.0),
      "boardYSize" := JNum(19.0),
      "moves" := JArr(seq(|moves|, i requires 0 <= i < |moves| => MoveJson(moves[i]))),
      "analyzeTurns" := JArr([JNum(|moves| as real)]),
      "maxVisits" := JNum(180.0),
      "includeOwnership" := JBool(true),
      "includePolicy" := JBool(true)]
  }

  /** The request ids `t1`, `t2`, ... */
  function IdOf(n: nat): string {
    "t" + NatToString(n)
  }

  lemma IdOfInjective(m: nat, n: nat)
    ensures IdOf(m) == IdOf(n) <==> m == n
  {
    if IdOf(m) == IdOf(n) {
      assert NatToString(m) == IdOf(m)[1..] == IdOf(n)[1..] == NatToString(n);
      NatToStringInjective(m, n);
    }
  }

  /** `{ id, ...payload }`: the payload's own fields win over the id. */
  function WithId(id: string, payload: map<string, Json>): (r: Json)
    ensures r.JObj? && r.fields.Keys == payload.Keys + {"id"}
    ensures "id" !in payload ==> r.fields["id"] == JStr(id)
    ensures forall k :: k in payload ==> r.fields[k] == payload[k]
  {
    JObj(map["id" := JStr(id)] + payload)
  }

  // ----- candidates -----

  /** The sort key, `m.scoreMean ?? 0`. */
  function Key(m: Json): real {
    NumberOr(Field(Some(m), "scoreMean"), 0.0)
  }

  predicate Descending(s: seq<Json>) {
    forall i, j :: 0 <= i < j < |s| ==> Key(s[i]) >= Key(s[j])
  }

  /** The entries with key k, in order. */
  function WithKey(s: seq<Json>, k: real): seq<Json> {
    if s == [] then [] else (if Key(s[0]) == k then [s[0]] else []) + WithKey(s[1..], k)
  }

  /** x goes after every entry whose key is at least its own. */
  function Insert(s: seq<Json>, x: Json): seq<Json> {
    if s == [] then [x]
    else if Key(s[0]) >= Key(x) then [s[0]] + Insert(s[1..], x)
    else [x] + s
  }

  /** `[...moveInfos].sort((a, b) => key(b) - key(a))`, a stable sort. */
  function SortByScore(s: seq<Json>): seq<Json> {
    if s == [] then [] else Insert(SortByScore(s[..|s| - 1]), s[|s| - 1])
  }

  lemma {:induction false} InsertPerm(s: seq<Json>, x: Json)
    ensures multiset(Insert(s, x)) == multiset(s) + multiset{x}
  {
    if s != [] && Key(s[0]) >= Key(x) {
      InsertPerm(s[1..], x);
      assert s == [s[0]] + s[1..];
    }
  }

  /** A head no smaller than any key of a descending tail keeps the list
      descending. */
  lemma ConsSorted(h: Json, t: seq<Json>)
    requires Descending(t) && forall j :: 0 <= j < |t| ==> Key(h) >= Key(t[j])
    ensures Descending([h] + t)
  {
    var r := [h] + t;
    forall i, j | 0 <= i < j < |r| ensures Key(r[i]) >= Key(r[j]) {
      assert r[j] == t[j - 1];
      if i > 0 {
        assert r[i] == t[i - 1];
      }
    }
  }

  lemma {:induction false} InsertSorted(s: seq<Json>, x: Json)
    requires Descending(s)
    ensures Descending(Insert(s, x))
  {
    if s != [] && Key(s[0]) >= Key(x) {
      var t := Insert(s[1..], x);
      InsertSorted(s[1..], x);
      InsertPerm(s[1..], x);
      forall j | 0 <= j < |t| ensures Key(s[0]) >= Key(t[j]) {
        assert t[j] in multiset(t);
        if t[j] != x {
          assert t[j] in multiset(s[1..]);
          var i :| 0 <= i < |s[1..]| && s[1..][i] == t[j];
          assert s[i + 1] == t[j];
        }
      }
      ConsSorted(s[0], t);
    } else if s != [] {
      ConsSorted(x, s);
    }
  }

  /** Insertion appends x to the entries sharing its key. */
  lemma {:induction false} InsertStable(s: seq<Json>, x: Json, k: real)
    requires Descending(s)
    ensures WithKey(Insert(s, x), k) == WithKey(s, k) + (if Key(x) == k then [x] else [])
  {
    if s != [] {
      var r := Insert(s, x);
      var h := if Key(s[0]) == k then [s[0]] else [];
      assert WithKey(s, k) == h + WithKey(s[1..], k);
      if Key(s[0]) >= Key(x) {
        DescendingTail(s);
        InsertStable(s[1..], x, k);
        assert r == [s[0]] + Insert(s[1..], x);
        assert WithKey(r, k) == h + WithKey(Insert(s[1..], x), k);
      } else {
        assert r == [x] + s;
        assert WithKey(r, k) == (if Key(x) == k then [x] else []) + WithKey(s, k);
        if Key(x) == k {
          WithKeyNone(s, k);
        }
      }
    }
  }

  lemma DescendingTail(s: seq<Json>)
    requires s != [] && Descending(s)
    ensures Descending(s[1..])
  {
    var t := s[1..];
    forall i, j | 0 <= i < j < |t| ensures Key(t[i]) >= Key(t[j]) {
      assert t[i] == s[i + 1] && t[j] == s[j + 1];
    }
  }

  /** Nothing in a descending list with a larger head has key k. */
  lemma {:induction false} WithKeyNone(s: seq<Json>, k: real)
    requires Descending(s) && (s == [] || Key(s[0]) < k)
    ensures WithKey(s, k) == []
  {
    if s != [] {
      WithKeyNone(s[1..], k);
    }
  }

  lemma {:induction false} WithKeyAppend(a: seq<Json>, b: seq<Json>, k: real)
    ensures WithKey(a + b, k) == WithKey(a, k) + WithKey(b, k)
  {
    if a != [] {
      var c := a + b;
      assert c[0] == a[0] && c[1..] == a[1..] + b;
      WithKeyAppend(a[1..], b, k);
    } else {
      assert a + b == b;
    }
  }

  /** The sort is a permutation, descending by key, and stable: the
      entries sharing a key keep their order. */
  lemma {:induction false} SortByScoreSpec(s: seq<Json>)
    ensures multiset(SortByScore(s)) == multiset(s)
    ensures Descending(SortByScore(s))
  {
    if s != [] {
      var n := |s| - 1;
      SortByScoreSpec(s[..n]);
      InsertPerm(SortByScore(s[..n]), s[n]);
      InsertSorted(SortByScore(s[..n]), s[n]);
      assert s == s[..n] + [s[n]];
    }
  }

  /** Stability: the entries sharing a key keep their order. */
  lemma {:induction false} SortByScoreStable(s: seq<Json>, k: real)
    ensures WithKey(SortByScore(s), k) == WithKey(s, k)
  {
    if s != [] {
      var n := |s| - 1;
      var init, x := s[..n], s[n];
      SortByScoreStable(init, k);
      SortByScoreSpec(init);
      InsertStable(SortByScore(init), x, k);
      assert s == init + [x];
      WithKeySnoc(init, x, k);
    }
  }

  /** Appending one entry appends it to its key's entries. */
  lemma WithKeySnoc(a: seq<Json>, x: Json, k: real)
    ensures WithKey(a + [x], k) == WithKey(a, k) + (if Key(x) == k then [x] else [])
  {
    WithKeyAppend(a, [x], k);
    assert WithKey([x], k) == (if Key(x) == k then [x] else []) + WithKey([], k) by {
      assert [x][1..] == [];
    }
  }

  /** `(res?.rootInfo ?? res?.root ?? {}).moveInfos ?? res?.moveInfos ?? []`. */
  function MoveInfos(res: Option<Json>): Option<Json> {
    var root := Coalesce(Field(res, "rootInfo"), Coalesce(Field(res, "root"), Some(JObj(map[]))));
    Coalesce(Field(root, "moveInfos"), Coalesce(Field(res, "moveInfos"), Some(JArr([]))))
  }

  /** The probe order of `MoveInfos`: with a non-null `rootInfo` its list
      wins and `root` is never read; without one, `root`'s list wins; then
      the top-level list. */
  lemma MoveInfosProbes(res: Option<Json>)
    ensures !Nullish(Field(res, "rootInfo")) && !Nullish(Field(Field(res, "rootInfo"), "moveInfos")) ==>
      MoveInfos(res) == Field(Field(res, "rootInfo"), "moveInfos")
    ensures Nullish(Field(res, "rootInfo")) && !Nullish(Field(Field(res, "root"), "moveInfos")) ==>
      MoveInfos(res) == Field(Field(res, "root"), "moveInfos")
    ensures !Nullish(Field(res, "rootInfo")) && Nullish(Field(Field(res, "rootInfo"), "moveInfos")) ==>
      MoveInfos(res) == Coalesce(Field(res, "moveInfos"), Some(JArr([])))
  {
  }

  /** What `pickBestCandidate` returns. */
  datatype Pick = Pick(best: Option<Json>, sorted: seq<Json>)

  /** `pickBestCandidate`: nothing for a missing, non-array or empty list;
      otherwise the sorted list and its head. */
  function PickBestCandidate(res: Option<Json>): (r: Pick)
    ensures r.best.None? <==> r.sorted == []
    ensures r.best.Some? ==> r.best.value == r.sorted[0]
  {
    var infos := MoveInfos(res);
    if infos.None? || !infos.value.JArr? || |infos.value.items| == 0 then Pick(None, [])
    else
      var sorted := SortByScore(infos.value.items);
      SortByScoreSpec(infos.value.items);
      assert infos.value.items[0] in multiset(sorted);
      Pick(Some(sorted[0]), sorted)
  }

  /** The list found is empty or not an array exactly when there is no best
      candidate; otherwise the sorted list is a stable descending permutation
      of it and the best candidate scores at least as much as every other. */
  lemma PickBestCandidateSpec(res: Option<Json>)
    ensures var infos := MoveInfos(res);
            PickBestCandidate(res).best.None? <==> infos.None? || !infos.value.JArr? || infos.value.items == []
    ensures var infos := MoveInfos(res);
            var p := PickBestCandidate(res);
            p.best.Some? ==>
              multiset(p.sorted) == multiset(infos.value.items) && Descending(p.sorted) &&
              (forall k :: WithKey(p.sorted, k) == WithKey(infos.value.items, k)) &&
              forall m :: m in infos.value.items ==> Key(m) <= Key(p.best.value)
  {
    var infos := MoveInfos(res);
    var p := PickBestCandidate(res);
    if p.best.Some? {
      SortByScoreSpec(infos.value.items);
      forall k ensures WithKey(p.sorted, k) == WithKey(infos.value.items, k) {
        SortByScoreStable(infos.value.items, k);
      }
      forall m | m in infos.value.items ensures Key(m) <= Key(p.best.value) {
        assert m in multiset(p.sorted);
        var j :| 0 <= j < |p.sorted| && p.sorted[j] == m;
      }
    }
  }

  /** The items of v when it is an array. */
  function ArrayOf(v: Option<Json>): Option<seq<Json>> {
    if v.Some? && v.value.JArr? then Some(v.value.items) else None
  }

  /** `Array.isArray(o?.turns) && o.turns[0]?.ownership`. */
  function TurnsOwnership(res: Option<Json>): Option<Json> {
    var turns := Field(res, "turns");
    if turns.Some? && turns.value.JArr? && |turns.value.items| > 0 then Field(Some(turns.value.items[0]), "ownership")
    else None
  }

  /** The four places `pickOwnership` tries, in order. */
  function OwnershipPaths(res: Option<Json>): seq<Option<Json>> {
    [Field(Field(res, "rootInfo"), "ownership"), Field(Field(res, "root"), "ownership"),
     Field(res, "ownership"), TurnsOwnership(res)]
  }

  /** The first path holding an array. */
  function FirstArray(paths: seq<Option<Json>>): seq<Json> {
    if paths == [] then []
    else if ArrayOf(paths[0]).Some? then ArrayOf(paths[0]).value
    else FirstArray(paths[1..])
  }

  /** `pickOwnership`. */
  function PickOwnership(res: Option<Json>): seq<Json> {
    FirstArray(OwnershipPaths(res))
  }

  /** Path i holds the first array. */
  predicate FirstArrayAt(paths: seq<Option<Json>>, i: int) {
    0 <= i < |paths| && ArrayOf(paths[i]).Some? && forall j :: 0 <= j < i ==> ArrayOf(paths[j]).None?
  }

  /** The ownership comes from the first path holding an array, and is empty
      when no path holds one. */
  lemma {:induction false} FirstArraySpec(paths: seq<Option<Json>>)
    ensures (forall i :: 0 <= i < |paths| ==> ArrayOf(paths[i]).None?) ==> FirstArray(paths) == []
    ensures forall i :: FirstArrayAt(paths, i) ==> FirstArray(paths) == ArrayOf(paths[i]).value
  {
    if paths != [] {
      FirstArraySpec(paths[1..]);
      forall i | FirstArrayAt(paths, i)
        ensures FirstArray(paths) == ArrayOf(paths[i]).value
      {
        if i > 0 {
          assert FirstArrayAt(paths[1..], i - 1);
          assert paths[1..][i - 1] == paths[i];
          forall j | 0 <= j < i - 1 ensures ArrayOf(paths[1..][j]).None? {
            assert paths[1..][j] == paths[j + 1];
          }
        }
      }
    }
  }

  lemma PickOwnershipSpec(res: Option<Json>)
    ensures var ps := OwnershipPaths(res);
            forall i :: FirstArrayAt(ps, i) ==> PickOwnership(res) == ArrayOf(ps[i]).value
    ensures var ps := OwnershipPaths(res);
            (forall i :: 0 <= i < 4 ==> ArrayOf(ps[i]).None?) ==> PickOwnership(res) == []
  {
    FirstArraySpec(OwnershipPaths(res));
  }

  /** One entry of the returned candidates. */
  datatype Candidate = Candidate(move: string, order: nat, prior: Json, winrate: real, scoreMean: real)

  /** The mapping of the i-th sorted entry (order i + 1): prior falls back to
      policy, then 0; winrate to 0.5; scoreMean to 0. */
  function ToCandidate(m: Json, order: nat): Candidate {
    var prior := Field(Some(m), "prior");
    var policy := Field(Some(m), "policy");
    Candidate(
      UpperOr(Field(Some(m), "move"), ""),
      order,
      if prior.Some? && prior.value.JNum? then prior.value else Coalesce(policy, Some(JNum(0.0))).value,
      NumberOr(Field(Some(m), "winrate"), 0.5),
      NumberOr(Field(Some(m), "scoreMean"), 0.0))
  }

  /** `sorted.slice(0, 3).map(...)`. */
  function TopCandidates(sorted: seq<Json>): (r: seq<Candidate>)
    ensures |r| == if |sorted| < 3 then |sorted| else 3
  {
    var n := if |sorted| < 3 then |sorted| else 3;
    seq(n, i requires 0 <= i < n => ToCandidate(sorted[i], i + 1))
  }

  /** At most three candidates, numbered 1..n in the sorted order, with
      upper-case moves and the documented defaults. */
  lemma TopCandidatesSpec(sorted: seq<Json>)
    ensures forall i :: 0 <= i < |TopCandidates(sorted)| ==>
      var c := TopCandidates(sorted)[i];
      var m := Some(sorted[i]);
      && c.order == i + 1
      && ToUpper(c.move) == c.move
      && (Field(m, "winrate").Some? && Field(m, "winrate").value.JNum? ==> c.winrate == Field(m, "winrate").value.n)
      && (!(Field(m, "winrate").Some? && Field(m, "winrate").value.JNum?) ==> c.winrate == 0.5)
      && (!(Field(m, "scoreMean").Some? && Field(m, "scoreMean").value.JNum?) ==> c.scoreMean == 0.0)
      && (Nullish(Field(m, "prior")) && Nullish(Field(m, "policy")) ==> c.prior == JNum(0.0))
  {
    forall i | 0 <= i < |TopCandidates(sorted)| ensures ToUpper(TopCandidates(sorted)[i].move) == TopCandidates(sorted)[i].move {
      var f := Field(Some(sorted[i]), "move");
      ToUpperIdempotent(if f.Some? && f.value.JStr? then f.value.s else "");
    }
  }

  /** `best?.pv` upper-cased when it is an array; non-string entries become
      empty. */
  function PvOf(best: Option<Json>): (r: seq<string>)
    ensures var v := ArrayOf(Field(best, "pv"));
            |r| == (if v.Some? then |v.value| else 0)
  {
    var v := ArrayOf(Field(best, "pv"));
    if v.None? then []
    else seq(|v.value|, i requires 0 <= i < |v.value| => if v.value[i].JStr? then ToUpper(v.value[i].s) else "")
  }
}
