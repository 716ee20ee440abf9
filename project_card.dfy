/**
 * One project card (src/components/common/ProjectCard.tsx): the image slot,
 * the technology chips cut to the first three with a "+N" badge for the
 * rest, and the GitHub and Live Demo links drawn only when the project has
 * them.
 */
module ProjectCard {
  import opened Types
  import opened Sequences
  import Constants

  /** How many technology chips a card draws at most. */
  const MAX_CHIPS := 3

  /** What fills the top of the card: the project's image, or a gradient block. */
  datatype ImageSlot = Photo(src: string) | Placeholder

  /** `project.image ? <img src=…> : <div …/>`. */
  function ImageSlotOf(p: Project): (slot: ImageSlot)
    ensures slot.Photo? <==> Present(p.image)
    ensures slot.Photo? ==> Some(slot.src) == p.image
  {
    if Present(p.image) then Photo(p.image.value) else Placeholder
  }

  /** `technologies.slice(0, 3)`: the chips drawn, in order. */
  function VisibleChips(technologies: seq<string>): (chips: seq<string>)
    ensures |chips| == if |technologies| < MAX_CHIPS then |technologies| else MAX_CHIPS
    ensures IsSubsequence(chips, technologies)
    ensures forall i :: 0 <= i < |chips| ==> chips[i] == technologies[i]
  {
    var n := if |technologies| < MAX_CHIPS then |technologies| else MAX_CHIPS;
    PrefixIsSubsequence(technologies, n);
    technologies[..n]
  }

  lemma {:induction false} PrefixIsSubsequence(s: seq<string>, n: nat)
    requires n <= |s|
    ensures IsSubsequence(s[..n], s)
  {
    if n > 0 {
      PrefixIsSubsequence(s[1..], n - 1);
      assert s[..n][1..] == s[1..][..n - 1];
    }
  }

  /**
   * The number on the "+N" badge; `None` when the badge is not drawn
   * (`technologies.length > 3` is false).
   */
  function Overflow(technologies: seq<string>): (n: Option<nat>)
    ensures n.Some? <==> |technologies| > MAX_CHIPS
    ensures n.Some? ==> n.value > 0 && |VisibleChips(technologies)| + n.value == |technologies|
    ensures n.None? ==> VisibleChips(technologies) == technologies
  {
    if |technologies| > MAX_CHIPS then Some(|technologies| - MAX_CHIPS) else None
  }

  /** Every technology is either drawn as a chip or counted in the badge, never both. */
  lemma ChipsAccountForAll(technologies: seq<string>)
    ensures |VisibleChips(technologies)| + (if Overflow(technologies).Some? then Overflow(technologies).value else 0)
            == |technologies|
  {
  }

  /** The decimal digits JavaScript writes for a natural number. */
  function DecimalString(n: nat): (s: string)
    ensures |s| > 0
    ensures forall i :: 0 <= i < |s| ==> '0' <= s[i] <= '9'
    ensures |s| > 1 ==> s[0] != '0'
  {
    if n < 10 then [DigitChar(n)] else DecimalString(n / 10) + [DigitChar(n % 10)]
  }

  function DigitChar(d: nat): (c: char)
    requires d < 10
    ensures '0' <= c <= '9' && c as int - '0' as int == d
  {
    ('0' as int + d) as char
  }

  /** Reading a string of decimal digits back as a number. */
  function DecimalValue(s: string): nat
    requires forall i :: 0 <= i < |s| ==> '0' <= s[i] <= '9'
  {
    if s == [] then 0
    else DecimalValue(s[..|s| - 1]) * 10 + (s[|s| - 1] as int - '0' as int)
  }

  /** The digits written for a number read back as that number. */
  lemma {:induction false} DecimalRoundTrip(n: nat)
    ensures DecimalValue(DecimalString(n)) == n
  {
    if n >= 10 {
      DecimalRoundTrip(n / 10);
      var s := DecimalString(n);
      assert s[..|s| - 1] == DecimalString(n / 10);
    }
  }

  /** The text of the "+N" badge, when it is drawn. */
  function OverflowBadge(technologies: seq<string>): (text: Option<string>)
    ensures text.Some? <==> |technologies| > MAX_CHIPS
    ensures text.Some? ==> |text.value| > 1 && text.value[0] == '+' && text.value[1] != '0'
  {
    match Overflow(technologies)
    case None => None
    case Some(n) => Some("+" + DecimalString(n))
  }

  /** The badge reads "+" followed by the number of technologies left out. */
  lemma OverflowBadgeCountsHidden(technologies: seq<string>)
    requires |technologies| > MAX_CHIPS
    ensures OverflowBadge(technologies).value[1..] == DecimalString(|technologies| - MAX_CHIPS)
    ensures DecimalValue(OverflowBadge(technologies).value[1..]) == |technologies| - |VisibleChips(technologies)|
  {
    DecimalRoundTrip(|technologies| - MAX_CHIPS);
  }

  /** Cards with four or five technologies show "+1" or "+2". */
  lemma BadgeOfLength(technologies: seq<string>)
    requires 4 <= |technologies| <= 5
    ensures |technologies| == 4 ==> OverflowBadge(technologies) == Some("+1")
    ensures |technologies| == 5 ==> OverflowBadge(technologies) == Some("+2")
  {
    var n := |technologies| - MAX_CHIPS;
    assert OverflowBadge(technologies) == Some("+" + DecimalString(n));
    if n == 1 {
      assert DecimalString(1) == "1";
      assert "+" + "1" == "+1";
    } else {
      assert DecimalString(2) == "2";
      assert "+" + "2" == "+2";
    }
  }

  /** The GitHub button: drawn, linking to `github`, iff `github` is truthy. */
  function GitHubLink(p: Project): (href: Option<string>)
    ensures href.Some? <==> Present(p.github)
    ensures href.Some? ==> href == p.github
  {
    if Present(p.github) then p.github else None
  }

  /** The Live Demo button: drawn, linking to `liveDemo`, iff `liveDemo` is truthy. */
  function LiveDemoLink(p: Project): (href: Option<string>)
    ensures href.Some? <==> Present(p.liveDemo)
    ensures href.Some? ==> href == p.liveDemo
  {
    if Present(p.liveDemo) then p.liveDemo else None
  }

  /**
   * On the site's data: every project has an image; the first five have a
   * GitHub button and Santaran has none; no project has a Live Demo button;
   * a card with five technologies shows "+2", one with four shows "+1", and
   * Santaran's three fit without a badge.
   */
  lemma SiteCards()
    ensures forall p :: p in Constants.PROJECTS ==> ImageSlotOf(p).Photo?
    ensures forall p :: p in Constants.PROJECTS ==> (GitHubLink(p).Some? <==> p != Constants.SANTARAN)
    ensures forall p :: p in Constants.PROJECTS ==> LiveDemoLink(p).None?
    ensures OverflowBadge(Constants.HEALTH_MONITORING.technologies) == Some("+2")
    ensures OverflowBadge(Constants.VOTING_SYSTEM.technologies) == Some("+1")
    ensures OverflowBadge(Constants.SANTARAN.technologies) == None
  {
    BadgeOfLength(Constants.HEALTH_MONITORING.technologies);
    BadgeOfLength(Constants.VOTING_SYSTEM.technologies);
  }
}
