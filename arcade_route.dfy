/** The Google Cloud Skills Boost badge scraper (app/api/arcade/route.ts).
    The fetched profile page is given as its `.profile-badge` elements, in
    document order, and a map from element id to the `headline` attribute of
    that element; the DOM queries become the fields of `BadgeElement`. */
module ArcadeRoute {
  import opened Text

  const ProfileId: string := "3ee205e0-bbfa-48d6-852f-770aac47be0a"
  const ProfileUrl: string := "https://www.cloudskillsboost.google/public_profiles/" + ProfileId

  const FailureMessage: string := "Gagal mengambil data Arcade. Coba lagi nanti."

  /** What the handler reads from one `.profile-badge` element: the `src` of
      its `img` (absent when there is none), the text of its date node, the
      `modal` attribute of its `ql-button` (absent when there is none) and the
      text of its `.profile-badge--title` node. A query that matches nothing
      yields the empty text. */
  datatype BadgeElement = BadgeElement(
    image: Option<string>,
    dateText: string,
    modalId: Option<string>,
    titleText: string)

  /** The parsed page: the badge elements, and the `headline` attribute of
      every element of the document that has an id and that attribute. */
  datatype Page = Page(elements: seq<BadgeElement>, headlines: map<string, string>)

  /** One emitted badge `{ title, date, image }`. */
  datatype Badge = Badge(title: string, date: string, image: string)

  datatype Stats = Stats(totalBadges: nat, estimatedPoints: nat, lastActive: string, profileUrl: string)

  datatype Response = Failure(status: int, error: string) | Ok(stats: Stats, badges: seq<Badge>)

  // ---------------------------------------------------------------------
  // Per-badge rules

  /** route.ts:31-32: the date text without its first "Earned", trimmed. */
  function CleanDate(dateText: string): (date: string)
    ensures |date| <= |dateText|
  {
    Trim(ReplaceFirst(dateText, "Earned", ""))
  }

  /** The headline of the badge's modal: `modalEl.attr('headline') || ''`
      when the modal id is non-empty, otherwise the empty string. */
  function ModalHeadline(e: BadgeElement, headlines: map<string, string>): (h: string)
    ensures e.modalId.Some? && e.modalId.value != "" && e.modalId.value in headlines ==>
      h == headlines[e.modalId.value]
    ensures e.modalId.None? || e.modalId.value == "" || e.modalId.value !in headlines ==> h == ""
  {
    match e.modalId
    case Some(id) => if id != "" && id in headlines then headlines[id] else ""
    case None => ""
  }

  /** route.ts:36-49: the modal headline when it is non-empty, and only
      otherwise the trimmed title text. */
  function TitleOf(e: BadgeElement, headlines: map<string, string>): (title: string)
    ensures ModalHeadline(e, headlines) != "" ==> title == ModalHeadline(e, headlines)
    ensures ModalHeadline(e, headlines) == "" ==> title == Trim(e.titleText)
  {
    var h := ModalHeadline(e, headlines);
    if h != "" then h else Trim(e.titleText)
  }

  /** The badge one element yields (route.ts:51-53): one when both its
      title and its image are non-empty, none otherwise. */
  function Extract(e: BadgeElement, headlines: map<string, string>): (kept: seq<Badge>)
    ensures |kept| <= 1
  {
    var title := TitleOf(e, headlines);
    if title != "" && e.image.Some? && e.image.value != ""
    then [Badge(title, CleanDate(e.dateText), e.image.value)] else []
  }

  /** The results of `f` on each of `xs`, concatenated in order. */
  function ConcatMap<T, U>(xs: seq<T>, f: T -> seq<U>): seq<U>
  {
    if xs == [] then [] else ConcatMap(xs[..|xs| - 1], f) + f(xs[|xs| - 1])
  }

  /** On a single element, `ConcatMap` is `f` of that element. */
  lemma ConcatMapOne<T, U>(xs: seq<T>, f: T -> seq<U>)
    ensures |xs| == 1 ==> ConcatMap(xs, f) == f(xs[0])
  {
    if |xs| == 1 {
      assert xs[..0] == [];
    }
  }

  /** `Extract` against a fixed page. */
  function ExtractFn(headlines: map<string, string>): BadgeElement -> seq<Badge>
  {
    e => Extract(e, headlines)
  }

  /** The badges emitted for `elements`, in document order (route.ts:24-54). */
  function Badges(elements: seq<BadgeElement>, headlines: map<string, string>): (badges: seq<Badge>)
    ensures |elements| == 1 ==> badges == Extract(elements[0], headlines)
  {
    ConcatMapOne(elements, ExtractFn(headlines));
    ConcatMap(elements, ExtractFn(headlines))
  }

  /** The body of the `.each` callback (route.ts:25-53) for one element:
      `title` starts empty, takes the modal headline, then the fallback. */
  method ExtractOne(e: BadgeElement, headlines: map<string, string>) returns (kept: seq<Badge>)
    ensures kept == Extract(e, headlines)
  {
    var date := CleanDate(e.dateText);
    var title := "";
    if e.modalId.Some? && e.modalId.value != "" {
      title := if e.modalId.value in headlines then headlines[e.modalId.value] else "";
    }
    assert title == ModalHeadline(e, headlines);
    if title == "" {
      title := Trim(e.titleText);
    }
    assert title == TitleOf(e, headlines);
    kept := [];
    if title != "" && e.image.Some? && e.image.value != "" {
      kept := [Badge(title, date, e.image.value)];
    }
  }

  /** The `.each` loop of route.ts:24-54, pushing onto `badges`. */
  method ExtractBadges(page: Page) returns (badges: seq<Badge>)
    ensures badges == Badges(page.elements, page.headlines)
  {
    badges := [];
    for i := 0 to |page.elements|
      invariant badges == Badges(page.elements[..i], page.headlines)
    {
      var kept := ExtractOne(page.elements[i], page.headlines);
      badges := badges + kept;
      ghost var seen := page.elements[..i + 1];
      assert seen[..|seen| - 1] == page.elements[..i] && seen[|seen| - 1] == page.elements[i];
    }
    assert page.elements[..|page.elements|] == page.elements;
  }

  /** route.ts:57-63. */
  function StatsOf(badges: seq<Badge>): (s: Stats)
    ensures s.totalBadges == |badges|
    ensures 2 * s.estimatedPoints <= |badges| < 2 * s.estimatedPoints + 2
    ensures s.lastActive == (if badges == [] then "-" else badges[0].date)
    ensures s.profileUrl == ProfileUrl
  {
    Stats(|badges|, |badges| / 2, if |badges| > 0 then badges[0].date else "-", ProfileUrl)
  }

  /** The handler: `page` is absent when fetching or parsing threw. */
  method Get(page: Option<Page>) returns (r: Response)
    ensures page.None? ==> r == Failure(500, FailureMessage)
    ensures page.Some? ==>
      && r.Ok?
      && r.badges == Badges(page.value.elements, page.value.headlines)
      && r.stats == StatsOf(r.badges)
  {
    if page.None? {
      return Failure(500, FailureMessage);
    }
    var badges := ExtractBadges(page.value);
    r := Ok(StatsOf(badges), badges);
  }

  // ---------------------------------------------------------------------
  // Properties

  /** What a kept badge carries: the element's title, image and cleaned
      date, the first two non-empty. */
  lemma ExtractFacts(e: BadgeElement, headlines: map<string, string>)
    ensures forall b :: b in Extract(e, headlines) ==>
      && b.title != "" && b.image != "" && e.image == Some(b.image)
      && b.title == TitleOf(e, headlines) && b.date == CleanDate(e.dateText)
  {
  }

  /** Every emitted badge has a non-empty title and image, and came from one
      of the elements, with that element's cleaned date. */
  lemma {:induction false} BadgesComplete(elements: seq<BadgeElement>, headlines: map<string, string>)
    ensures forall b :: b in Badges(elements, headlines) ==> b.title != "" && b.image != ""
    ensures forall b :: b in Badges(elements, headlines) ==>
      exists i :: 0 <= i < |elements| && elements[i].image == Some(b.image)
                  && b.title == TitleOf(elements[i], headlines) && b.date == CleanDate(elements[i].dateText)
  {
    if elements != [] {
      var n := |elements| - 1;
      var init := elements[..n];
      var last := elements[n];
      BadgesComplete(init, headlines);
      ExtractFacts(last, headlines);
      assert Badges(elements, headlines) == Badges(init, headlines) + Extract(last, headlines);
      forall b | b in Badges(elements, headlines)
        ensures b.title != "" && b.image != ""
        ensures exists i :: 0 <= i < |elements| && elements[i].image == Some(b.image)
                  && b.title == TitleOf(elements[i], headlines) && b.date == CleanDate(elements[i].dateText)
      {
        if b in Badges(init, headlines) {
          var i :| 0 <= i < |init| && init[i].image == Some(b.image)
                   && b.title == TitleOf(init[i], headlines) && b.date == CleanDate(init[i].dateText);
          assert elements[i] == init[i];
        } else {
          assert b in Extract(last, headlines);
          assert elements[n] == last;
        }
      }
    }
  }

  /** There are never more badges than elements. */
  lemma {:induction false} BadgesAtMostElements(elements: seq<BadgeElement>, headlines: map<string, string>)
    ensures |Badges(elements, headlines)| <= |elements|
  {
    if elements != [] {
      BadgesAtMostElements(elements[..|elements| - 1], headlines);
    }
  }

  /** Extraction works element by element and keeps document order: the
      badges of two runs of elements are the badges of each, in turn. */
  lemma {:induction false} BadgesAppend(a: seq<BadgeElement>, b: seq<BadgeElement>, headlines: map<string, string>)
    ensures Badges(a + b, headlines) == Badges(a, headlines) + Badges(b, headlines)
  {
    ConcatMapAppend(a, b, ExtractFn(headlines));
  }

  lemma {:induction false} ConcatMapAppend<T, U>(a: seq<T>, b: seq<T>, f: T -> seq<U>)
    ensures ConcatMap(a + b, f) == ConcatMap(a, f) + ConcatMap(b, f)
  {
    if b == [] {
      assert a + b == a;
    } else {
      var init := b[..|b| - 1];
      var ab := a + b;
      assert ab[..|ab| - 1] == a + init && ab[|ab| - 1] == b[|b| - 1];
      ConcatMapAppend(a, init, f);
    }
  }

  /** One element is dropped exactly when its title or its image is empty. */
  lemma DropIff(e: BadgeElement, headlines: map<string, string>)
    ensures Badges([e], headlines) == [] <==> TitleOf(e, headlines) == "" || e.image.None? || e.image.value == ""
  {
    assert [e][..0] == [];
    assert ConcatMap([e], ExtractFn(headlines)) == [] + ExtractFn(headlines)(e);
  }

  /** A date text of the usual form "Earned <date>" yields `<date>` when
      that is already trimmed. */
  lemma CleanDateOfEarned(d: string)
    requires d == [] || (!IsSpace(d[0]) && !IsSpace(d[|d| - 1]))
    ensures CleanDate("Earned " + d) == d
  {
    var s := "Earned " + d;
    assert OccursAt(s, "Earned", 0);
    assert FirstIndex(s, "Earned") == Some(0);
    var r := ReplaceFirst(s, "Earned", "");
    assert r == " " + d;
    assert LeadingEnd(r, 1) == 1;
    assert LeadingEnd(r, 0) == 1;
    assert TrailingStart(r, 1, |r|) == |r|;
    assert r[1..] == d;
  }

  /** A headline is used as it is, even when it is only white space,
      whereas the fallback title text is trimmed. */
  lemma HeadlineNotTrimmed(id: string, headline: string, titleText: string)
    requires id != "" && headline != ""
    ensures TitleOf(BadgeElement(None, "", Some(id), titleText), map[id := headline]) == headline
  {
  }

  /** The page of the site's profile: seven badges give three points. */
  lemma PointsOfSevenBadges(badges: seq<Badge>)
    requires |badges| == 7
    ensures StatsOf(badges).estimatedPoints == 3
  {
  }

  /** Points never decrease as badges are added. */
  lemma PointsMonotone(a: seq<Badge>, b: seq<Badge>)
    requires |a| <= |b|
    ensures StatsOf(a).estimatedPoints <= StatsOf(b).estimatedPoints
  {
  }
}
