/**
  The list logic of the credits page (features/Legal/credits/Credits.tsx): the split of the
  contributor list into maintainers and the rest, the mapping of the GitHub contributors payload,
  the filter over the GitHub sponsorship nodes, and the case-insensitive, first-wins merge of
  GitHub sponsors with Ko-fi supporters.
*/
module Credits {
  import opened CreditTypes

  // ---------------------------------------------------------------------------
  // JavaScript helpers the page relies on
  // ---------------------------------------------------------------------------

  function Min(a: int, b: int): int { if a <= b then a else b }

  /** `Array.prototype.slice(start, end)` for non-negative bounds: both are clamped to the length. */
  function Slice<T>(s: seq<T>, start: nat, end: nat): (r: seq<T>)
    ensures |r| == if Min(start, |s|) <= Min(end, |s|) then Min(end, |s|) - Min(start, |s|) else 0
    ensures forall i :: 0 <= i < |r| ==> r[i] == s[start + i]
  {
    var b := Min(start, |s|);
    var e := Min(end, |s|);
    if b <= e then s[b..e] else []
  }

  /** One character of `String.prototype.toLowerCase`, for the ASCII letters. */
  function LowerChar(c: char): char
  {
    if 'A' <= c <= 'Z' then (c as int + 32) as char else c
  }

  /** `String.prototype.toLowerCase`, restricted to ASCII case mapping. */
  function Lower(s: string): (r: string)
    ensures |r| == |s|
    ensures forall i :: 0 <= i < |s| ==> r[i] == LowerChar(s[i])
  {
    if s == [] then [] else [LowerChar(s[0])] + Lower(s[1..])
  }

  /** Lower-casing twice is lower-casing once: a lower-cased login is its own key. */
  lemma LowerIdempotent(s: string)
    ensures Lower(Lower(s)) == Lower(s)
  {
    var l := Lower(s);
    forall i | 0 <= i < |s|
      ensures Lower(l)[i] == l[i]
    {
      assert 'a' <= l[i] <= 'z' ==> !('A' <= l[i] <= 'Z');
    }
  }

  /** Only the empty login has the empty key. */
  lemma LowerEmpty(s: string)
    ensures Lower(s) == "" <==> s == ""
  {
    if s != "" {
      assert |Lower(s)| == |s| > 0;
    }
  }

  // ---------------------------------------------------------------------------
  // Contributors: the GitHub REST payload (lines 9, 23-26)
  // ---------------------------------------------------------------------------

  /** One element of the GitHub contributors payload. */
  datatype GHContributor = GHContributor(login: string, avatar_url: string, html_url: string)

  /** The decoded JSON body: only `AnArray` passes the array test of line 24. */
  datatype ContributorsPayload = AnArray(items: seq<GHContributor>) | NotAnArray

  /** The arrow function of line 25: the payload entry can be read back from the person it gives. */
  function ToContributor(c: GHContributor): (p: Person)
    ensures p.url.Some? && GHContributor(p.login, p.avatar, p.url.value) == c
  {
    Person(c.login, c.avatar_url, Some(c.html_url))
  }

  /** The mapping of line 25: one person per payload entry, in order, with `avatar_url` read as the avatar and `html_url` as the url. */
  function ToContributors(data: seq<GHContributor>): (r: seq<Person>)
    ensures |r| == |data|
    ensures forall i :: 0 <= i < |data| ==>
      r[i].login == data[i].login && r[i].avatar == data[i].avatar_url && r[i].url == Some(data[i].html_url)
  {
    if data == [] then [] else [ToContributor(data[0])] + ToContributors(data[1..])
  }

  /**
    `fetchContributors`: `None` stands for every failure the function turns into `[]`
    (a thrown fetch, a response that is not ok, a body that fails to parse).
  */
  function FetchContributors(response: Option<ContributorsPayload>): (r: seq<Person>)
    ensures response.None? || response.value.NotAnArray? ==> r == []
    ensures response.Some? && response.value.AnArray? ==>
      |r| == |response.value.items| &&
      forall i :: 0 <= i < |r| ==> r[i] == ToContributor(response.value.items[i])
  {
    match response
    case None => []
    case Some(AnArray(items)) => ToContributors(items)
    case Some(NotAnArray) => []
  }

  /** The mapping loses nothing: every field of the payload can be read back from the person. */
  lemma {:induction false} ContributorsInvertible(data: seq<GHContributor>)
    ensures FromContributors(ToContributors(data)) == data
  {
    if data != [] {
      ContributorsInvertible(data[1..]);
      assert ToContributors(data)[1..] == ToContributors(data[1..]);
    }
  }

  /** Reads a GitHub contributor back from a mapped person (its url is always present). */
  function FromContributors(people: seq<Person>): (r: seq<GHContributor>)
    ensures |r| == |people|
  {
    if people == [] then []
    else
      var p := people[0];
      [GHContributor(p.login, p.avatar, if p.url.Some? then p.url.value else "")] + FromContributors(people[1..])
  }

  /** The mapping commutes with concatenation: order is kept block by block. */
  lemma {:induction false} ContributorsAppend(a: seq<GHContributor>, b: seq<GHContributor>)
    ensures ToContributors(a + b) == ToContributors(a) + ToContributors(b)
  {
    if a != [] {
      assert (a + b)[1..] == a[1..] + b;
      ContributorsAppend(a[1..], b);
    }
  }

  // ---------------------------------------------------------------------------
  // Maintainers and the remaining contributors (lines 79-80)
  // ---------------------------------------------------------------------------

  /**
    The two slices of lines 79-80: the maintainers are the first
    min(2, |contributors|) entries and the list shown as contributors is the remainder.
  */
  function SplitMaintainers(contributors: seq<Person>): (parts: (seq<Person>, seq<Person>))
    ensures parts.0 + parts.1 == contributors
    ensures |parts.0| == Min(2, |contributors|)
    ensures |parts.0| > 0 <==> |contributors| > 0
    ensures |parts.1| > 0 <==> |contributors| > 2
  {
    (Slice(contributors, 0, 2), Slice(contributors, 2, |contributors|))
  }

  // ---------------------------------------------------------------------------
  // Sponsors: the GraphQL sponsorship nodes (lines 63-69)
  // ---------------------------------------------------------------------------

  /**
    The `sponsorEntity` of a node. Only the `User` and `Organization` fragments select
    `login`, so an entity of another type has none.
  */
  datatype SponsorEntity = SponsorEntity(login: Option<string>, avatarUrl: string, url: string)

  /** A sponsorship node; `None` is a null node or a node without `sponsorEntity`. */
  datatype SponsorNode = SponsorNode(sponsorEntity: Option<SponsorEntity>)

  /**
    The guard of line 67: the node has a sponsor entity whose login is present and non-empty,
    so a kept sponsor never falls under the empty de-duplication key.
  */
  predicate Qualifies(n: Option<SponsorNode>): (b: bool)
    ensures b <==> n.Some? && n.value.sponsorEntity.Some? && n.value.sponsorEntity.value.login.Some? &&
                   Lower(n.value.sponsorEntity.value.login.value) != ""
  {
    if n.Some? && n.value.sponsorEntity.Some? && n.value.sponsorEntity.value.login.Some? then
      var login := n.value.sponsorEntity.value.login.value;
      LowerEmpty(login);
      login != ""
    else false
  }

  function ToSponsor(n: Option<SponsorNode>): (p: Person)
    requires Qualifies(n)
    ensures p.login != ""
  {
    var e := n.value.sponsorEntity.value;
    Person(e.login.value, e.avatarUrl, Some(e.url))
  }

  /** The sponsors the loop pushes, as a function of the nodes it has visited. */
  function KeptSponsors(nodes: seq<Option<SponsorNode>>): (r: seq<Person>)
    ensures |r| <= |nodes|
    ensures forall p :: p in r ==> p.login != ""
  {
    if nodes == [] then []
    else
      var last := nodes[|nodes| - 1];
      KeptSponsors(nodes[..|nodes| - 1]) + (if Qualifies(last) then [ToSponsor(last)] else [])
  }

  /** The filter commutes with concatenation: the kept sponsors come out in node order. */
  lemma {:induction false} KeptSponsorsAppend(a: seq<Option<SponsorNode>>, b: seq<Option<SponsorNode>>)
    ensures KeptSponsors(a + b) == KeptSponsors(a) + KeptSponsors(b)
    decreases |b|
  {
    if b != [] {
      var b' := b[..|b| - 1];
      assert (a + b)[..|a + b| - 1] == a + b';
      KeptSponsorsAppend(a, b');
    } else {
      assert a + b == a;
    }
  }

  /** A single node is kept, mapped, exactly when it qualifies. */
  lemma KeptSponsorsSingle(n: Option<SponsorNode>)
    ensures KeptSponsors([n]) == if Qualifies(n) then [ToSponsor(n)] else []
  {
    assert [n][..0] == [];
  }

  /** The loop at lines 64-68: pushes one sponsor per qualifying node, in order. */
  method CollectSponsors(nodes: seq<Option<SponsorNode>>) returns (sponsors: seq<Person>)
    ensures sponsors == KeptSponsors(nodes)
  {
    sponsors := [];
    var i := 0;
    while i < |nodes|
      invariant 0 <= i <= |nodes|
      invariant sponsors == KeptSponsors(nodes[..i])
    {
      var n := nodes[i];
      assert nodes[..i + 1][..i] == nodes[..i];
      if Qualifies(n) {
        sponsors := sponsors + [ToSponsor(n)];
      }
      i := i + 1;
    }
    assert nodes[..i] == nodes;
  }

  /**
    What `fetchSponsors` sees: no token, a failed request (thrown, not ok, unparsable), or an
    answer whose `data.user.sponsorshipsAsMaintainer.nodes` path may be missing.
  */
  datatype SponsorsResponse =
    | NoToken
    | RequestFailed
    | Answered(nodes: Option<seq<Option<SponsorNode>>>)

  method FetchSponsors(response: SponsorsResponse) returns (sponsors: seq<Person>)
    ensures response.NoToken? || response.RequestFailed? ==> sponsors == []
    ensures response.Answered? && response.nodes.None? ==> sponsors == []
    ensures response.Answered? && response.nodes.Some? ==> sponsors == KeptSponsors(response.nodes.value)
  {
    match response
    case NoToken =>
      sponsors := [];
    case RequestFailed =>
      sponsors := [];
    case Answered(nodes) =>
      var list := if nodes.Some? then nodes.value else [];
      sponsors := CollectSponsors(list);
  }

  // ---------------------------------------------------------------------------
  // Merging GitHub sponsors with Ko-fi supporters (lines 85-93)
  // ---------------------------------------------------------------------------

  /**
    The de-duplication key of line 89: the login lower-cased. It is as long as the login, so it is
    empty exactly when the login is and every login-less entry shares the key ''.
  */
  function KeyOf(p: Person): (k: string)
    ensures |k| == |p.login|
  {
    Lower(p.login)
  }

  /** The keys that occur in a list. */
  function Keys(s: seq<Person>): set<string>
  {
    set p | p in s :: KeyOf(p)
  }

  /** No two entries share a key. */
  predicate NoDuplicateKeys(s: seq<Person>)
  {
    forall i, j :: 0 <= i < j < |s| ==> KeyOf(s[i]) != KeyOf(s[j])
  }

  /** How many entries of `s` have key `k`. */
  function CountKey(s: seq<Person>, k: string): nat
  {
    if s == [] then 0
    else CountKey(s[..|s| - 1], k) + (if KeyOf(s[|s| - 1]) == k then 1 else 0)
  }

  /** The index of the earliest entry of `s` whose key is `k`. */
  function FirstIndex(s: seq<Person>, k: string): (j: nat)
    requires k in Keys(s)
    ensures j < |s| && KeyOf(s[j]) == k
    ensures forall i :: 0 <= i < j ==> KeyOf(s[i]) != k
  {
    if KeyOf(s[0]) == k then 0
    else
      assert k in Keys(s[1..]) by {
        var p :| p in s && KeyOf(p) == k;
        var i :| 0 <= i < |s| && s[i] == p;
        assert s[1..][i - 1] == p;
      }
      1 + FirstIndex(s[1..], k)
  }

  lemma KeysSnoc(s: seq<Person>, x: Person)
    ensures Keys(s + [x]) == Keys(s) + {KeyOf(x)}
  {
    assert forall p :: p in s + [x] <==> p in s || p == x;
  }

  /**
    The merge of lines 87-92, one entry at a time in the order the loop visits them: an entry
    is kept when no entry kept so far has its key.
  */
  function Dedupe(s: seq<Person>): (r: seq<Person>)
    ensures |r| <= |s|
    ensures Keys(r) == Keys(s)
    ensures NoDuplicateKeys(r)
  {
    if s == [] then []
    else
      var p := s[..|s| - 1];
      var last := s[|s| - 1];
      assert s == p + [last];
      KeysSnoc(p, last);
      var d := Dedupe(p);
      if KeyOf(last) in Keys(d) then d
      else
        KeysSnoc(d, last);
        d + [last]
  }

  /** The merge of one more entry: it is kept exactly when its key has not been kept yet. */
  lemma DedupeSnoc(s: seq<Person>, x: Person)
    ensures Dedupe(s + [x]) == if KeyOf(x) in Keys(Dedupe(s)) then Dedupe(s) else Dedupe(s) + [x]
  {
    assert (s + [x])[..|s|] == s;
  }

  /** Every key of the merged list occurs in the result exactly once, and no other key does. */
  lemma {:induction false} DedupeExactlyOnce(s: seq<Person>, k: string)
    ensures CountKey(Dedupe(s), k) == if k in Keys(s) then 1 else 0
  {
    if s != [] {
      var p := s[..|s| - 1];
      var last := s[|s| - 1];
      assert s == p + [last];
      DedupeSnoc(p, last);
      DedupeExactlyOnce(p, k);
      KeysSnoc(p, last);
      var d := Dedupe(p);
      if KeyOf(last) !in Keys(d) {
        assert (d + [last])[..|d|] == d;
      }
    }
  }

  /** An index into a prefix that is first in the prefix is first in the whole list. */
  lemma FirstIndexPrefix(s: seq<Person>, n: nat, k: string)
    requires n <= |s| && k in Keys(s[..n])
    ensures k in Keys(s) && FirstIndex(s, k) == FirstIndex(s[..n], k)
  {
    var j := FirstIndex(s[..n], k);
    assert s[j] == s[..n][j];
    assert s[j] in s;
    forall i | 0 <= i < j ensures KeyOf(s[i]) != k {
      assert s[i] == s[..n][i];
    }
  }

  /**
    First occurrence wins: each kept entry is the earliest entry of the merged list with its key.
  */
  lemma {:induction false} DedupeKeepsFirst(s: seq<Person>, i: nat)
    requires i < |Dedupe(s)|
    ensures KeyOf(Dedupe(s)[i]) in Keys(s)
    ensures Dedupe(s)[i] == s[FirstIndex(s, KeyOf(Dedupe(s)[i]))]
  {
    var r := Dedupe(s);
    assert r[i] in r;
    var p := s[..|s| - 1];
    var last := s[|s| - 1];
    var d := Dedupe(p);
    assert s == p + [last];
    if i < |d| {
      DedupeKeepsFirst(p, i);
      assert r[i] == d[i];
      FirstIndexPrefix(s, |s| - 1, KeyOf(d[i]));
      assert p[FirstIndex(p, KeyOf(d[i]))] == s[FirstIndex(p, KeyOf(d[i]))];
    } else {
      assert r == d + [last] && r[i] == last;
      forall j | 0 <= j < |s| - 1 ensures KeyOf(s[j]) != KeyOf(last) {
        assert s[j] == p[j] && p[j] in p;
      }
    }
  }

  /** The kept entry for a key is present in the result. */
  lemma DedupeContainsFirst(s: seq<Person>, k: string)
    requires k in Keys(s)
    ensures s[FirstIndex(s, k)] in Dedupe(s)
  {
    var r := Dedupe(s);
    assert k in Keys(r);
    var q :| q in r && KeyOf(q) == k;
    var i :| 0 <= i < |r| && r[i] == q;
    DedupeKeepsFirst(s, i);
  }

  /** The result lists the keys in the order of their first appearance in the merged list. */
  lemma {:induction false} DedupeOrder(s: seq<Person>, i: nat, j: nat)
    requires i < j < |Dedupe(s)|
    ensures KeyOf(Dedupe(s)[i]) in Keys(s) && KeyOf(Dedupe(s)[j]) in Keys(s)
    ensures FirstIndex(s, KeyOf(Dedupe(s)[i])) < FirstIndex(s, KeyOf(Dedupe(s)[j]))
  {
    var r := Dedupe(s);
    assert r[i] in r && r[j] in r;
    var p := s[..|s| - 1];
    var last := s[|s| - 1];
    var d := Dedupe(p);
    assert s == p + [last];
    DedupeSnoc(p, last);
    assert r[i] == d[i] && d[i] in d;
    var ki := KeyOf(d[i]);
    FirstIndexPrefix(s, |s| - 1, ki);
    if j < |d| {
      assert r[j] == d[j] && d[j] in d;
      DedupeOrder(p, i, j);
      FirstIndexPrefix(s, |s| - 1, KeyOf(d[j]));
    } else {
      assert r[j] == last;
      FirstIndexOfNewLast(s);
    }
  }

  /** An entry whose key is new to the list before it is the first entry with that key. */
  lemma FirstIndexOfNewLast(s: seq<Person>)
    requires |s| > 0 && KeyOf(s[|s| - 1]) !in Keys(Dedupe(s[..|s| - 1]))
    ensures KeyOf(s[|s| - 1]) in Keys(s) && FirstIndex(s, KeyOf(s[|s| - 1])) == |s| - 1
  {
    var p := s[..|s| - 1];
    assert s[|s| - 1] in s;
    forall m | 0 <= m < |s| - 1 ensures KeyOf(s[m]) != KeyOf(s[|s| - 1]) {
      assert s[m] == p[m] && p[m] in p;
    }
  }

  /** A GitHub sponsor beats a Ko-fi supporter whose login is equal ignoring case. */
  lemma GitHubSponsorWins(sponsors: seq<Person>, kofi: seq<Person>, k: string)
    requires k in Keys(sponsors)
    ensures k in Keys(sponsors + kofi)
    ensures sponsors[FirstIndex(sponsors, k)] in Dedupe(sponsors + kofi)
    ensures forall q :: q in Dedupe(sponsors + kofi) && KeyOf(q) == k ==> q == sponsors[FirstIndex(sponsors, k)]
  {
    var m := sponsors + kofi;
    assert m[..|sponsors|] == sponsors;
    FirstIndexPrefix(m, |sponsors|, k);
    DedupeContainsFirst(m, k);
    var r := Dedupe(m);
    forall q | q in r && KeyOf(q) == k ensures q == sponsors[FirstIndex(sponsors, k)] {
      var i :| 0 <= i < |r| && r[i] == q;
      DedupeKeepsFirst(m, i);
    }
  }

  /** Login-less entries all share the key '', so at most one of them is shown. */
  lemma AtMostOneLoginless(s: seq<Person>)
    ensures forall i, j :: 0 <= i < j < |Dedupe(s)| ==> Dedupe(s)[i].login != "" || Dedupe(s)[j].login != ""
  {
    var r := Dedupe(s);
    forall i, j | 0 <= i < j < |r| && r[i].login == "" ensures r[j].login != "" {
      LowerEmpty(r[j].login);
    }
  }

  /**
    `seen` maps each key of `kept` to its entry, and `order` lists those keys in the order their
    entries appear in `kept`.
  */
  predicate Indexes(seen: map<string, Person>, order: seq<string>, kept: seq<Person>)
  {
    && seen.Keys == Keys(kept)
    && |order| == |kept|
    && forall j :: 0 <= j < |order| ==> order[j] == KeyOf(kept[j]) && order[j] in seen && seen[order[j]] == kept[j]
  }

  /** Inserting an entry with a new key keeps the index in step with the kept entries. */
  lemma IndexesSnoc(seen: map<string, Person>, order: seq<string>, kept: seq<Person>, s: Person)
    requires Indexes(seen, order, kept) && KeyOf(s) !in seen
    ensures Indexes(seen[KeyOf(s) := s], order + [KeyOf(s)], kept + [s])
  {
    KeysSnoc(kept, s);
    var seen', order', kept' := seen[KeyOf(s) := s], order + [KeyOf(s)], kept + [s];
    forall j | 0 <= j < |order'|
      ensures order'[j] == KeyOf(kept'[j]) && order'[j] in seen' && seen'[order'[j]] == kept'[j]
    {
      if j < |order| {
        assert order'[j] == order[j] && kept'[j] == kept[j] && order[j] in seen;
      }
    }
  }

  /**
    The loop of lines 87-92: walks the merged list and fills a Map keyed by the lower-cased
    login, skipping keys it has seen. `order` records the Map's insertion order.
  */
  method IndexByKey(merged: seq<Person>) returns (seen: map<string, Person>, order: seq<string>)
    ensures Indexes(seen, order, Dedupe(merged))
  {
    seen, order := map[], [];
    ghost var kept: seq<Person> := [];
    var i := 0;
    while i < |merged|
      invariant 0 <= i <= |merged|
      invariant kept == Dedupe(merged[..i])
      invariant Indexes(seen, order, kept)
    {
      var s := merged[i];
      var key := KeyOf(s);
      assert merged[..i + 1] == merged[..i] + [s];
      DedupeSnoc(merged[..i], s);
      if key !in seen {
        IndexesSnoc(seen, order, kept, s);
        seen := seen[key := s];
        order := order + [key];
        kept := kept + [s];
      }
      i := i + 1;
    }
    assert merged[..i] == merged;
  }

  /**
    `sponsorsToShow` (lines 85-93): the GitHub sponsors followed by the Ko-fi supporters, merged
    by `IndexByKey`, then the Map's values read back in insertion order.
  */
  method SponsorsToShow(sponsors: seq<Person>, kofi: seq<Person>) returns (shown: seq<Person>)
    ensures shown == Dedupe(sponsors + kofi)
    ensures |shown| <= |sponsors| + |kofi|
  {
    var seen, order := IndexByKey(sponsors + kofi);
    ghost var result := Dedupe(sponsors + kofi);
    shown := [];
    var j := 0;
    while j < |order|
      invariant 0 <= j <= |order|
      invariant shown == result[..j]
    {
      shown := shown + [seen[order[j]]];
      assert result[..j + 1] == result[..j] + [result[j]];
      j := j + 1;
    }
    assert result[..j] == result;
  }

  /**
    The data the `Credits` page renders: the maintainers, the remaining contributors and
    the merged sponsors. `kofi` is the `KO_FI_SUPPORTERS` constant.
  */
  method Credits(contributorsResponse: Option<ContributorsPayload>, sponsorsResponse: SponsorsResponse, kofi: seq<Person>)
    returns (maintainers: seq<Person>, contributorsList: seq<Person>, sponsorsToShow: seq<Person>)
    ensures maintainers + contributorsList == FetchContributors(contributorsResponse)
    ensures |maintainers| == Min(2, |FetchContributors(contributorsResponse)|)
    ensures sponsorsResponse.Answered? && sponsorsResponse.nodes.Some? ==>
      sponsorsToShow == Dedupe(KeptSponsors(sponsorsResponse.nodes.value) + kofi)
    ensures !(sponsorsResponse.Answered? && sponsorsResponse.nodes.Some?) ==> sponsorsToShow == Dedupe(kofi)
  {
    var contributors := FetchContributors(contributorsResponse);
    var sponsors := FetchSponsors(sponsorsResponse);
    var parts := SplitMaintainers(contributors);
    maintainers, contributorsList := parts.0, parts.1;
    sponsorsToShow := SponsorsToShow(sponsors, kofi);
    assert [] + kofi == kofi;
  }
}
