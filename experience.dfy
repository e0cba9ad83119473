/**
  The experience cards (client/src/components/Experience/Experience.tsx): the set of
  companies whose business context is expanded, and the element id each card gets
  from its company name, which the hero's tag links (client/src/components/Hero/Hero.tsx)
  point at.
 */
module Experience {
  import opened JsText

  /** The set `toggleCard` hands back: a copy of `s` with `c` removed if it was there
      and added if it was not. */
  function Toggled(s: set<string>, c: string): (r: set<string>)
    ensures c in r <==> c !in s
    ensures forall x :: x != c ==> (x in r <==> x in s)
  {
    if c in s then s - {c} else s + {c}
  }

  /** Toggling the same company twice gives back the set it started from. */
  lemma ToggleTwice(s: set<string>, c: string)
    ensures Toggled(Toggled(s, c), c) == s
  {
  }

  /** Toggles of two different companies commute. */
  lemma TogglesCommute(s: set<string>, a: string, b: string)
    ensures Toggled(Toggled(s, a), b) == Toggled(Toggled(s, b), a)
  {
  }

  class Cards {
    var openCards: set<string>

    constructor ()
      ensures openCards == {}
    {
      openCards := {};
    }

    /** The card's "View/Hide business context" control. */
    method ToggleCard(company: string)
      modifies this
      ensures openCards == Toggled(old(openCards), company)
    {
      var next := openCards;
      if company in next {
        next := next - {company};
      } else {
        next := next + {company};
      }
      openCards := next;
    }
  }

  const Companies: seq<string> := ["Grid Dynamics", "Dority Design Works"]

  /** `name.toLowerCase().replace(/\s+/g, "-")`, the card id. */
  function Slug(name: string): string {
    ReplaceWhitespaceRuns(Lower(name), "-")
  }

  /** The hero tags, one per company, in the same order. */
  const HeroTags: seq<string> := ["Grid Dynamics", "Dority Design Works"]

  /** A hero tag's `href`. */
  function HeroHref(tag: string): string {
    "#" + Slug(tag)
  }

  lemma LowerKeepsWhitespace(c: char)
    ensures IsWhitespace(LowerChar(c)) <==> IsWhitespace(c)
  {
  }

  /** `toLowerCase` distributes over concatenation. */
  lemma LowerAppend(a: string, b: string)
    ensures Lower(a + b) == Lower(a) + Lower(b)
  {
  }

  /** A slug contains no whitespace and no upper-case letter. */
  lemma SlugIsLowerAndSolid(name: string)
    ensures NoWhitespace(Slug(name)) && IsLowerCase(Slug(name))
  {
    var t := Slug(name);
    ReplaceRemovesWhitespace(Lower(name), "-");
    forall i | 0 <= i < |t| ensures !('A' <= t[i] <= 'Z') {
      ReplaceKeepsChars(Lower(name), "-", t[i]);
    }
  }

  /** Slugging a slug changes nothing. */
  lemma SlugIsIdempotent(name: string)
    ensures Slug(Slug(name)) == Slug(name)
  {
    var t := Slug(name);
    SlugIsLowerAndSolid(name);
    assert Lower(t) == t;
    ReplaceIdentity(t, "-");
  }

  /** A name without whitespace is only lower-cased. */
  lemma SlugOfOneWord(name: string)
    requires NoWhitespace(name)
    ensures Slug(name) == Lower(name)
  {
    forall i | 0 <= i < |name| ensures !IsWhitespace(Lower(name)[i]) {
      LowerKeepsWhitespace(name[i]);
    }
    ReplaceIdentity(Lower(name), "-");
  }

  /** Each maximal whitespace run of the name becomes a single "-". */
  lemma SlugSplitsAtRun(x: string, run: string, y: string)
    requires x == [] || !IsWhitespace(x[|x| - 1])
    requires run != [] && AllWhitespace(run)
    requires y == [] || !IsWhitespace(y[0])
    ensures Slug(x + (run + y)) == Slug(x) + ("-" + Slug(y))
  {
    LowerAppend(x, run + y);
    LowerAppend(run, y);
    if x != [] { LowerKeepsWhitespace(x[|x| - 1]); }
    if y != [] { LowerKeepsWhitespace(y[0]); }
    forall i | 0 <= i < |run| ensures IsWhitespace(Lower(run)[i]) {
      LowerKeepsWhitespace(run[i]);
    }
    ReplaceSplitsAtRun(Lower(x), Lower(run), Lower(y), "-");
  }

  lemma JoinGridDynamics()
    ensures "grid" + ("-" + "dynamics") == "grid-dynamics"
  {
  }

  lemma JoinDorityDesignWorks()
    ensures "dority" + ("-" + ("design" + ("-" + "works"))) == "dority-design-works"
  {
  }

  /** Two words joined by one space become their lower-cased forms joined by "-". */
  lemma SlugOfTwoWords(a: string, b: string)
    requires a != [] && b != [] && NoWhitespace(a) && NoWhitespace(b)
    ensures Slug(a + (" " + b)) == Lower(a) + ("-" + Lower(b))
  {
    SlugSplitsAtRun(a, " ", b);
    SlugOfOneWord(a);
    SlugOfOneWord(b);
  }

  /** The card id of "Grid Dynamics". */
  lemma GridDynamicsId()
    ensures Slug(Companies[0]) == "grid-dynamics"
  {
    assert Companies[0] == "Grid" + (" " + "Dynamics");
    SlugOfTwoWords("Grid", "Dynamics");
    assert Lower("Grid") == "grid";
    assert Lower("Dynamics") == "dynamics";
    JoinGridDynamics();
  }

  /** The card id of "Dority Design Works". */
  lemma DorityDesignWorksId()
    ensures Slug(Companies[1]) == "dority-design-works"
  {
    var rest := "Design" + (" " + "Works");
    assert Companies[1] == "Dority" + (" " + rest);
    SlugOfTwoWords("Design", "Works");
    assert Slug(rest) == "design" + ("-" + "works") by {
      assert Lower("Design") == "design";
      assert Lower("Works") == "works";
    }
    SlugSplitsAtRun("Dority", " ", rest);
    SlugOfOneWord("Dority");
    assert Lower("Dority") == "dority";
    JoinDorityDesignWorks();
  }

  /** Every hero tag links to the id of the card of the same company, and the two
      cards have different ids. */
  lemma HeroLinksTargetCards()
    ensures |HeroTags| == |Companies|
    ensures forall k :: 0 <= k < |HeroTags| ==> HeroHref(HeroTags[k]) == "#" + Slug(Companies[k])
    ensures Slug(Companies[0]) != Slug(Companies[1])
  {
    GridDynamicsId();
    DorityDesignWorksId();
  }
}
