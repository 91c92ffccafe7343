/** Result aggregation: the `profiles` dictionary of `main`, keyed by profile
    identity, into which every page's records are merged under the keyword
    being searched. The first sighting of an identity fixes its name,
    headline and location; later sightings only add keywords. */
module Aggregate {
  import opened Extract

  /** What is known about one profile. */
  datatype Entry = Entry(name: string, headline: string, location: string, keywords: set<string>)

  /** Profile identity to entry. */
  type Profiles = map<string, Entry>

  /** The records of one result page, tagged with the keyword searched. */
  datatype Batch = Batch(keyword: string, cards: seq<Card>)

  /** The entry a first sighting creates. */
  function NewEntry(card: Card, kw: string): Entry {
    Entry(card.name, card.headline, card.location, {kw})
  }

  /** Name, headline and location agree: the entry describes the same person
      the same way, whatever its keywords. */
  predicate SameDetails(e: Entry, f: Entry) {
    e.name == f.name && e.headline == f.headline && e.location == f.location
  }

  /** Merges one record: a new identity gets a fresh entry with keyword set
      `{kw}`; a known identity only gains `kw`; no other entry changes. */
  function MergeCard(p: Profiles, card: Card, kw: string): (q: Profiles)
    ensures q.Keys == p.Keys + {card.profileUrl}
    ensures card.profileUrl !in p ==> q[card.profileUrl] == NewEntry(card, kw)
    ensures card.profileUrl in p ==>
      SameDetails(q[card.profileUrl], p[card.profileUrl]) &&
      q[card.profileUrl].keywords == p[card.profileUrl].keywords + {kw}
    ensures forall u :: u in p && u != card.profileUrl ==> q[u] == p[u]
  {
    var url := card.profileUrl;
    if url !in p then p[url := NewEntry(card, kw)]
    else p[url := p[url].(keywords := p[url].keywords + {kw})]
  }

  /** The identities of a batch of records. */
  function Urls(cards: seq<Card>): set<string> {
    set c | c in cards :: c.profileUrl
  }

  lemma UrlsCons(cards: seq<Card>)
    requires |cards| > 0
    ensures Urls(cards) == {cards[0].profileUrl} + Urls(cards[1..])
  {
    assert cards == [cards[0]] + cards[1..];
    forall u | u in Urls(cards) ensures u in {cards[0].profileUrl} + Urls(cards[1..]) {
      var c :| c in cards && c.profileUrl == u;
    }
  }

  lemma {:induction false} UrlsAppend(a: seq<Card>, b: seq<Card>)
    ensures Urls(a + b) == Urls(a) + Urls(b)
  {
    forall u | u in Urls(a + b) ensures u in Urls(a) + Urls(b) {
      var c :| c in a + b && c.profileUrl == u;
    }
    forall u | u in Urls(a) + Urls(b) ensures u in Urls(a + b) {
      if u in Urls(a) {
        var c :| c in a && c.profileUrl == u;
        assert c in a + b;
      } else {
        var c :| c in b && c.profileUrl == u;
        assert c in a + b;
      }
    }
  }

  /** Position `i` holds the first record in `cards` with identity `url`. */
  predicate FirstAt(cards: seq<Card>, url: string, i: int) {
    0 <= i < |cards| && cards[i].profileUrl == url &&
    forall j :: 0 <= j < i ==> cards[j].profileUrl != url
  }

  /** The first record in `cards` with identity `url`. */
  function FirstSighting(cards: seq<Card>, url: string): (c: Card)
    requires url in Urls(cards)
    ensures c in cards && c.profileUrl == url
    ensures exists i :: FirstAt(cards, url, i) && cards[i] == c
  {
    UrlsCons(cards);
    if cards[0].profileUrl == url then
      assert FirstAt(cards, url, 0);
      cards[0]
    else
      var c := FirstSighting(cards[1..], url);
      FirstAfterMiss(cards, url, c);
      c
  }

  /** The first sighting is the head when it has the identity, else the
      first sighting in the tail. */
  lemma FirstSightingCons(cards: seq<Card>, url: string)
    requires url in Urls(cards)
    ensures cards[0].profileUrl == url ==> FirstSighting(cards, url) == cards[0]
    ensures cards[0].profileUrl != url ==>
      url in Urls(cards[1..]) && FirstSighting(cards, url) == FirstSighting(cards[1..], url)
  {
    UrlsCons(cards);
  }

  /** A record first in the tail, behind a head of another identity, is
      first in the whole sequence. */
  lemma FirstAfterMiss(cards: seq<Card>, url: string, c: Card)
    requires |cards| > 0 && cards[0].profileUrl != url
    requires exists i :: FirstAt(cards[1..], url, i) && cards[1..][i] == c
    ensures exists i :: FirstAt(cards, url, i) && cards[i] == c
  {
    var i :| FirstAt(cards[1..], url, i) && cards[1..][i] == c;
    forall j | 0 <= j < i + 1 ensures cards[j].profileUrl != url {
      if j > 0 { assert cards[j] == cards[1..][j - 1]; }
    }
    assert FirstAt(cards, url, i + 1);
  }

  /** The first sighting in `a + b` of an identity seen in `a` is its first
      sighting in `a`. */
  lemma {:induction false} FirstSightingPrefix(a: seq<Card>, b: seq<Card>, url: string)
    requires url in Urls(a)
    ensures url in Urls(a + b) && FirstSighting(a + b, url) == FirstSighting(a, url)
    decreases |a|
  {
    UrlsAppend(a, b);
    UrlsCons(a);
    if a[0].profileUrl != url {
      assert (a + b)[1..] == a[1..] + b;
      FirstSightingPrefix(a[1..], b, url);
    }
  }

  /** The first sighting in `a + b` of an identity not seen in `a` is its
      first sighting in `b`. */
  lemma {:induction false} FirstSightingSkip(a: seq<Card>, b: seq<Card>, url: string)
    requires url !in Urls(a) && url in Urls(b)
    ensures url in Urls(a + b) && FirstSighting(a + b, url) == FirstSighting(b, url)
    decreases |a|
  {
    UrlsAppend(a, b);
    if |a| == 0 {
      assert a + b == b;
    } else {
      UrlsCons(a);
      assert (a + b)[1..] == a[1..] + b;
      FirstSightingSkip(a[1..], b, url);
    }
  }

  /** Folds one page's records into the profiles, in order (script.py:159-171). */
  function MergeBatch(p: Profiles, cards: seq<Card>, kw: string): (q: Profiles)
    decreases |cards|
  {
    if |cards| == 0 then p
    else MergeBatch(MergeCard(p, cards[0], kw), cards[1..], kw)
  }

  /** What merging a batch does, identity by identity: the key set grows by
      exactly the batch's identities; a known identity keeps its details and
      gains `kw` exactly when the batch mentions it; a new identity takes its
      details from its first record in the batch and has keywords `{kw}`. */
  lemma MergeBatchSpec(p: Profiles, cards: seq<Card>, kw: string)
    ensures var q := MergeBatch(p, cards, kw);
      && q.Keys == p.Keys + Urls(cards)
      && (forall u :: u in p ==>
            SameDetails(q[u], p[u]) &&
            q[u].keywords == p[u].keywords + (if u in Urls(cards) then {kw} else {}))
      && (forall u :: u in Urls(cards) && u !in p ==>
            q[u] == NewEntry(FirstSighting(cards, u), kw))
  {
    MergeBatchKnown(p, cards, kw);
    MergeBatchNew(p, cards, kw);
  }

  /** The key and known-identity part of `MergeBatchSpec`. */
  lemma {:induction false} MergeBatchKnown(p: Profiles, cards: seq<Card>, kw: string)
    ensures MergeBatch(p, cards, kw).Keys == p.Keys + Urls(cards)
    ensures forall u :: u in p ==>
      SameDetails(MergeBatch(p, cards, kw)[u], p[u]) &&
      MergeBatch(p, cards, kw)[u].keywords == p[u].keywords + (if u in Urls(cards) then {kw} else {})
    decreases |cards|
  {
    if |cards| > 0 {
      MergeBatchKnown(MergeCard(p, cards[0], kw), cards[1..], kw);
      UrlsCons(cards);
    }
  }

  /** The new-identity part of `MergeBatchSpec`. */
  lemma {:induction false} MergeBatchNew(p: Profiles, cards: seq<Card>, kw: string)
    ensures forall u :: u in Urls(cards) && u !in p ==>
      u in MergeBatch(p, cards, kw) &&
      MergeBatch(p, cards, kw)[u] == NewEntry(FirstSighting(cards, u), kw)
    decreases |cards|
  {
    if |cards| > 0 {
      var card := cards[0];
      var p' := MergeCard(p, card, kw);
      MergeBatchKnown(p', cards[1..], kw);
      MergeBatchNew(p', cards[1..], kw);
      var q := MergeBatch(p, cards, kw);
      assert q == MergeBatch(p', cards[1..], kw);
      forall u | u in Urls(cards) && u !in p
        ensures u in q && q[u] == NewEntry(FirstSighting(cards, u), kw)
      {
        FirstSightingCons(cards, u);
      }
    }
  }

  /** Merging the same batch again under the same keyword changes nothing. */
  lemma MergeBatchIdempotent(p: Profiles, cards: seq<Card>, kw: string)
    ensures MergeBatch(MergeBatch(p, cards, kw), cards, kw) == MergeBatch(p, cards, kw)
  {
    var q := MergeBatch(p, cards, kw);
    var r := MergeBatch(q, cards, kw);
    MergeBatchSpec(p, cards, kw);
    MergeBatchSpec(q, cards, kw);
    assert r.Keys == q.Keys;
    forall u | u in q ensures r[u] == q[u] {
      assert SameDetails(r[u], q[u]);
    }
  }

  lemma MergeBatchKeys(p: Profiles, cards: seq<Card>, kw: string)
    ensures MergeBatch(p, cards, kw).Keys == p.Keys + Urls(cards)
  {
    MergeBatchSpec(p, cards, kw);
  }

  /** The keyword part of `MergeBatchSpec`, for one identity. */
  lemma MergeBatchKeywordsAt(p: Profiles, cards: seq<Card>, kw: string, u: string)
    requires u in p || u in Urls(cards)
    ensures u in MergeBatch(p, cards, kw)
    ensures MergeBatch(p, cards, kw)[u].keywords ==
      (if u in p then p[u].keywords else {}) + (if u in Urls(cards) then {kw} else {})
  {
    MergeBatchSpec(p, cards, kw);
  }

  /** Two batches merged in either order give the same identities with the
      same keyword sets; only which record fixed the details may differ. */
  lemma MergeBatchesCommuteOnKeywords(p: Profiles, b1: Batch, b2: Batch)
    ensures var q12 := MergeBatch(MergeBatch(p, b1.cards, b1.keyword), b2.cards, b2.keyword);
      var q21 := MergeBatch(MergeBatch(p, b2.cards, b2.keyword), b1.cards, b1.keyword);
      && q12.Keys == q21.Keys
      && forall u :: u in q12 ==> q12[u].keywords == q21[u].keywords
  {
    var q1 := MergeBatch(p, b1.cards, b1.keyword);
    var q2 := MergeBatch(p, b2.cards, b2.keyword);
    MergeBatchKeys(p, b1.cards, b1.keyword);
    MergeBatchKeys(p, b2.cards, b2.keyword);
    MergeBatchKeys(q1, b2.cards, b2.keyword);
    MergeBatchKeys(q2, b1.cards, b1.keyword);
    forall u | u in MergeBatch(q1, b2.cards, b2.keyword)
      ensures MergeBatch(q1, b2.cards, b2.keyword)[u].keywords ==
        MergeBatch(q2, b1.cards, b1.keyword)[u].keywords
    {
      if u in q1 {
        MergeBatchKeywordsAt(p, b1.cards, b1.keyword, u);
      }
      if u in q2 {
        MergeBatchKeywordsAt(p, b2.cards, b2.keyword, u);
      }
      MergeBatchKeywordsAt(q1, b2.cards, b2.keyword, u);
      MergeBatchKeywordsAt(q2, b1.cards, b1.keyword, u);
    }
  }

  /** Folds the batches of a whole run into the profiles, in order. */
  function Run(p: Profiles, batches: seq<Batch>): (q: Profiles)
    decreases |batches|
  {
    if |batches| == 0 then p
    else Run(MergeBatch(p, batches[0].cards, batches[0].keyword), batches[1..])
  }

  /** A run over two stretches of batches is the second stretch merged into
      the result of the first: the fold can be resumed where it stopped. */
  lemma {:induction false} RunConcat(p: Profiles, a: seq<Batch>, b: seq<Batch>)
    ensures Run(p, a + b) == Run(Run(p, a), b)
    decreases |a|
  {
    if |a| > 0 {
      assert (a + b)[0] == a[0];
      assert (a + b)[1..] == a[1..] + b;
      RunConcat(MergeBatch(p, a[0].cards, a[0].keyword), a[1..], b);
    } else {
      assert a + b == b;
    }
  }

  /** One more batch at the end of a run is merged into its result. */
  lemma RunSnoc(p: Profiles, a: seq<Batch>, b: Batch)
    ensures Run(p, a + [b]) == MergeBatch(Run(p, a), b.cards, b.keyword)
  {
    RunConcat(p, a, [b]);
    var q := Run(p, a);
    assert [b][1..] == [];
    assert Run(q, [b]) == Run(MergeBatch(q, b.cards, b.keyword), []);
  }

  /** Every identity seen in some batch. */
  function AllUrls(batches: seq<Batch>): set<string> {
    set b, u | b in batches && u in Urls(b.cards) :: u
  }

  /** The keywords of the batches in which `url` was seen. */
  function MatchedKeywords(batches: seq<Batch>, url: string): set<string> {
    set b | b in batches && url in Urls(b.cards) :: b.keyword
  }

  lemma BatchSetsCons(batches: seq<Batch>, url: string)
    requires |batches| > 0
    ensures AllUrls(batches) == Urls(batches[0].cards) + AllUrls(batches[1..])
    ensures MatchedKeywords(batches, url) ==
      (if url in Urls(batches[0].cards) then {batches[0].keyword} else {}) +
      MatchedKeywords(batches[1..], url)
  {
    assert batches == [batches[0]] + batches[1..];
    forall u | u in AllUrls(batches)
      ensures u in Urls(batches[0].cards) + AllUrls(batches[1..])
    {
      var b :| b in batches && u in Urls(b.cards);
    }
    forall k | k in MatchedKeywords(batches, url)
      ensures k in (if url in Urls(batches[0].cards) then {batches[0].keyword} else {}) +
        MatchedKeywords(batches[1..], url)
    {
      var b :| b in batches && url in Urls(b.cards) && b.keyword == k;
    }
  }

  lemma {:induction false} RunKeys(p: Profiles, batches: seq<Batch>)
    ensures Run(p, batches).Keys == p.Keys + AllUrls(batches)
    decreases |batches|
  {
    if |batches| > 0 {
      var b := batches[0];
      RunKeys(MergeBatch(p, b.cards, b.keyword), batches[1..]);
      MergeBatchKeys(p, b.cards, b.keyword);
      BatchSetsCons(batches, "");
    }
  }

  lemma {:induction false} RunKeywordsAt(p: Profiles, batches: seq<Batch>, u: string)
    requires u in Run(p, batches)
    ensures Run(p, batches)[u].keywords ==
      (if u in p then p[u].keywords else {}) + MatchedKeywords(batches, u)
    decreases |batches|
  {
    if |batches| > 0 {
      var b := batches[0];
      var p' := MergeBatch(p, b.cards, b.keyword);
      RunKeywordsAt(p', batches[1..], u);
      BatchSetsCons(batches, u);
      MergeBatchKeys(p, b.cards, b.keyword);
      if u in p' {
        MergeBatchKeywordsAt(p, b.cards, b.keyword, u);
      }
    }
  }

  lemma {:induction false} RunKeepsDetails(p: Profiles, batches: seq<Batch>, u: string)
    requires u in p
    ensures u in Run(p, batches) && SameDetails(Run(p, batches)[u], p[u])
    decreases |batches|
  {
    if |batches| > 0 {
      var b := batches[0];
      MergeBatchSpec(p, b.cards, b.keyword);
      RunKeepsDetails(MergeBatch(p, b.cards, b.keyword), batches[1..], u);
    }
  }

  /** Every record of a run, in the order they are merged. */
  function Flatten(batches: seq<Batch>): seq<Card> {
    if |batches| == 0 then [] else batches[0].cards + Flatten(batches[1..])
  }

  lemma {:induction false} UrlsFlatten(batches: seq<Batch>)
    ensures Urls(Flatten(batches)) == AllUrls(batches)
    decreases |batches|
  {
    if |batches| > 0 {
      UrlsFlatten(batches[1..]);
      UrlsAppend(batches[0].cards, Flatten(batches[1..]));
      BatchSetsCons(batches, "");
    }
  }

  /** The entry carries the record's name, headline and location. */
  predicate FromCard(e: Entry, c: Card) {
    e.name == c.name && e.headline == c.headline && e.location == c.location
  }

  /** An identity first seen during a run carries the details of its first
      record across the whole run, whichever page that was on. */
  lemma {:induction false} RunFirstSighting(p: Profiles, batches: seq<Batch>, u: string)
    requires u !in p && u in AllUrls(batches)
    ensures u in Urls(Flatten(batches)) && u in Run(p, batches)
    ensures FromCard(Run(p, batches)[u], FirstSighting(Flatten(batches), u))
    decreases |batches|
  {
    var b := batches[0];
    var p' := MergeBatch(p, b.cards, b.keyword);
    BatchSetsCons(batches, u);
    MergeBatchSpec(p, b.cards, b.keyword);
    if u in Urls(b.cards) {
      RunKeepsDetails(p', batches[1..], u);
      FirstSightingPrefix(b.cards, Flatten(batches[1..]), u);
    } else {
      RunFirstSighting(p', batches[1..], u);
      FirstSightingSkip(b.cards, Flatten(batches[1..]), u);
    }
  }

  /** What a whole run accumulates: the identities seen in any batch are
      added; an identity's keywords grow by exactly the keywords of the
      batches that saw it; an identity already present keeps its details,
      and a new one takes the details of its first record in the run. */
  lemma RunSpec(p: Profiles, batches: seq<Batch>)
    ensures var q := Run(p, batches);
      && q.Keys == p.Keys + AllUrls(batches)
      && (forall u :: u in q ==>
            q[u].keywords == (if u in p then p[u].keywords else {}) + MatchedKeywords(batches, u))
      && (forall u :: u in p ==> SameDetails(q[u], p[u]))
    ensures Urls(Flatten(batches)) == AllUrls(batches)
    ensures forall u :: u in AllUrls(batches) && u !in p ==>
      FromCard(Run(p, batches)[u], FirstSighting(Flatten(batches), u))
  {
    RunKeys(p, batches);
    UrlsFlatten(batches);
    forall u | u in AllUrls(batches) && u !in p
      ensures FromCard(Run(p, batches)[u], FirstSighting(Flatten(batches), u))
    {
      RunFirstSighting(p, batches, u);
    }
    forall u | u in Run(p, batches)
      ensures Run(p, batches)[u].keywords ==
        (if u in p then p[u].keywords else {}) + MatchedKeywords(batches, u)
    {
      RunKeywordsAt(p, batches, u);
    }
    forall u | u in p ensures SameDetails(Run(p, batches)[u], p[u]) {
      RunKeepsDetails(p, batches, u);
    }
  }

  /** Starting from no profiles, the final key set and keyword sets depend
      only on which batches were seen, not on their order: in particular a
      profile found under two keywords ends with both, whichever came first. */
  lemma RunOrderIndependent(bs1: seq<Batch>, bs2: seq<Batch>)
    requires forall b :: b in bs1 <==> b in bs2
    ensures Run(map[], bs1).Keys == Run(map[], bs2).Keys
    ensures forall u :: u in Run(map[], bs1) ==>
      Run(map[], bs1)[u].keywords == Run(map[], bs2)[u].keywords
  {
    RunSpec(map[], bs1);
    RunSpec(map[], bs2);
    assert AllUrls(bs1) == AllUrls(bs2);
    forall u ensures MatchedKeywords(bs1, u) == MatchedKeywords(bs2, u) {
    }
  }

  /** Starting from no profiles, a run holds exactly the identities seen,
      each with exactly the keywords it was seen under (at least one, and
      only keywords that were searched) and with the details of its first
      record in the run. */
  lemma RunFromEmpty(batches: seq<Batch>)
    ensures var q := Run(map[], batches);
      && q.Keys == AllUrls(batches)
      && (forall u :: u in q ==> q[u].keywords == MatchedKeywords(batches, u))
      && (forall u :: u in q ==> q[u].keywords != {})
      && (forall u, k :: u in q && k in q[u].keywords ==> exists b :: b in batches && b.keyword == k)
    ensures Urls(Flatten(batches)) == Run(map[], batches).Keys
    ensures forall u :: u in Run(map[], batches) ==>
      FromCard(Run(map[], batches)[u], FirstSighting(Flatten(batches), u))
  {
    RunSpec(map[], batches);
    var q := Run(map[], batches);
    forall u | u in q
      ensures q[u].keywords != {}
    {
      var b, v :| b in batches && v in Urls(b.cards) && v == u;
      assert b.keyword in MatchedKeywords(batches, u);
    }
    forall u, k | u in q && k in q[u].keywords
      ensures exists b :: b in batches && b.keyword == k
    {
      var b :| b in batches && u in Urls(b.cards) && b.keyword == k;
    }
  }
}
