/** Card extraction (`parse_contact_cards`): the rendered result page is given
    as the sequence of candidate profile links the page query selected, each
    with its DOM lookups already resolved to optional values. */
module Extract {
  import opened Wrappers
  import Text

  /** The result container that encloses a link: the texts of its headline
      and location elements, when those elements exist. */
  datatype Container = Container(headline: Option<string>, location: Option<string>)

  /** A candidate profile link: its `href`, the text of its nested name
      element, and its enclosing result container, when those exist. */
  datatype Link = Link(href: string, name: Option<string>, container: Option<Container>)

  /** One extracted result record. */
  datatype Card = Card(name: string, headline: string, location: string, profileUrl: string)

  /** The profile identity of a link target: the target with its query
      string cut off at the first `?`. */
  function ProfileIdentity(href: string): (id: string)
    ensures '?' !in id
    ensures id <= href
    ensures '?' in href ==> href[|id|] == '?'
    ensures '?' !in href ==> id == href
  {
    Text.BeforeFirst(href, '?')
  }

  /** The stripped text of an optional element, or `""` when it is missing. */
  function TextOrEmpty(element: Option<string>): (t: string)
    ensures element.None? ==> t == ""
    ensures element.Some? ==> t == Text.Strip(element.value)
  {
    match element
    case Some(text) => Text.Strip(text)
    case None => ""
  }

  /** The record one link contributes: a link yields a record exactly when
      it has both a name and a container. */
  function CardOf(link: Link): (r: Option<Card>)
    ensures r.Some? <==> link.name.Some? && link.container.Some?
  {
    match (link.name, link.container)
    case (Some(name), Some(c)) =>
      Some(Card(Text.Strip(name), TextOrEmpty(c.headline), TextOrEmpty(c.location),
                ProfileIdentity(link.href)))
    case _ => None
  }

  /** The fields of a link's record: the identity is the link target cut at
      the first `?`, the name is the stripped name text, and a container
      without a headline or a location still yields a record, with `""` in
      that field. */
  lemma CardOfFields(link: Link)
    requires link.name.Some? && link.container.Some?
    ensures var card := CardOf(link).value;
      && card.profileUrl == ProfileIdentity(link.href)
      && '?' !in card.profileUrl
      && card.name == Text.Strip(link.name.value)
      && (link.container.value.headline.None? ==> card.headline == "")
      && (link.container.value.location.None? ==> card.location == "")
      && (link.container.value.headline.Some? ==> card.headline == Text.Strip(link.container.value.headline.value))
      && (link.container.value.location.Some? ==> card.location == Text.Strip(link.container.value.location.value))
  {
  }

  /** What one link contributes, as a sequence of zero or one records. */
  function Contribution(link: Link): (cs: seq<Card>)
    ensures |cs| == 1 <==> CardOf(link).Some?
    ensures |cs| <= 1
    ensures CardOf(link).Some? ==> cs == [CardOf(link).value]
    ensures forall c :: c in cs ==> '?' !in c.profileUrl
  {
    match CardOf(link)
    case Some(c) => [c]
    case None => []
  }

  /** `parse_contact_cards`: one record per usable link, in link order. */
  function ParseCards(links: seq<Link>): (cards: seq<Card>)
    ensures |cards| <= |links|
    ensures forall c :: c in cards ==> '?' !in c.profileUrl
    ensures (forall i :: 0 <= i < |links| ==> CardOf(links[i]).Some?) ==> |cards| == |links|
  {
    if |links| == 0 then []
    else Contribution(links[0]) + ParseCards(links[1..])
  }

  /** Extraction works link by link: the records of a concatenation of link
      lists are the concatenation of their records. */
  lemma {:induction false} ParseCardsAppend(a: seq<Link>, b: seq<Link>)
    ensures ParseCards(a + b) == ParseCards(a) + ParseCards(b)
  {
    if |a| > 0 {
      assert (a + b)[0] == a[0];
      assert (a + b)[1..] == a[1..] + b;
      ParseCardsAppend(a[1..], b);
      var c := Contribution(a[0]);
      assert ParseCards(a + b) == c + (ParseCards(a[1..]) + ParseCards(b));
      assert c + (ParseCards(a[1..]) + ParseCards(b)) == (c + ParseCards(a[1..])) + ParseCards(b);
    } else {
      assert a + b == b;
    }
  }

  /** A link's record depends on that link alone, and a skipped link leaves
      every other link's record exactly as it would be without it. */
  lemma {:induction false} LinkContributionIsLocal(a: seq<Link>, link: Link, b: seq<Link>)
    ensures ParseCards(a + [link] + b) == ParseCards(a) + Contribution(link) + ParseCards(b)
    ensures CardOf(link).None? ==> ParseCards(a + [link] + b) == ParseCards(a + b)
  {
    var c := Contribution(link);
    assert ParseCards([link]) == c by {
      assert [link][1..] == [];
    }
    ParseCardsAppend(a, [link]);
    ParseCardsAppend(a + [link], b);
    assert ParseCards(a + [link] + b) == ParseCards(a) + c + ParseCards(b);
    if CardOf(link).None? {
      ParseCardsAppend(a, b);
      assert ParseCards(a) + c == ParseCards(a);
    }
  }

  /** With every other link usable, one nameless or container-less link
      among them costs exactly one record. */
  lemma OneSkippedLinkOneFewerRecord(a: seq<Link>, link: Link, b: seq<Link>)
    requires forall i :: 0 <= i < |a| ==> CardOf(a[i]).Some?
    requires forall i :: 0 <= i < |b| ==> CardOf(b[i]).Some?
    requires link.name.None? || link.container.None?
    ensures |ParseCards(a + [link] + b)| == |a| + |b|
  {
    LinkContributionIsLocal(a, link, b);
  }
}
