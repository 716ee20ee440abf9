/**
 * One certification badge (src/components/common/CertificationBadge.tsx):
 * a hover flag switched by mouse enter and leave that shows a tooltip, and
 * an image `src` that the error handler overwrites with an inline SVG
 * fallback.
 */
module CertificationBadge {
  import opened Types

  /** The part of the fallback data URL before the issuer's initial. */
  const FALLBACK_HEAD := "data:image/svg+xml;base64,PHN2ZyB3aWR0aD0iOTYiIGhlaWdodD0iOTYiIHZpZXdCb3g9IjAgMCA5NiA5NiIgZmlsbD0ibm9uZSIgeG1sbnM9Imh0dHA6Ly93d3cudzMub3JnLzIwMDAvc3ZnIj48cmVjdCB3aWR0aD0iOTYiIGhlaWdodD0iOTYiIHJ4PSIxNiIgZmlsbD0iIzAwNTJmMyIvPjx0ZXh0IHRleHQtYW5jaG9yPSJtaWRkbGUiIHRleHQ9ImE="

  /** The part of the fallback data URL after the issuer's initial. */
  const FALLBACK_TAIL := "iIHg9IjQ4IiB5PSI1NiIgZm9udC1zaXplPSI0MCIgZmlsbD0id2hpdGUiIGZvbnQtd2VpZ2h0PSJib2xkIiBmb250LWZhbWlseT0iQXJpYWwiPjwvdGV4dD48L3N2Zz4="

  /**
   * The text between head and tail in the handler's literal. The literal is
   * delimited by single quotes, so the double-quoted `+ … +` inside it is
   * part of the string and is never evaluated.
   */
  const QUOTED_EXPRESSION := "\" + certification.issuer.substring(0, 1) + \""

  /** `issuer.substring(0, 1)`: the first character, or "" for an empty issuer. */
  function Initial(issuer: string): (s: string)
    ensures |s| == if issuer == [] then 0 else 1
    ensures s <= issuer
  {
    if issuer == [] then "" else issuer[..1]
  }

  /** The fallback `src` as the handler writes it: one constant string literal. */
  function FallbackSrcAsWritten(issuer: string): (src: string)
    ensures FALLBACK_HEAD <= src
    ensures |src| == |FALLBACK_HEAD| + |QUOTED_EXPRESSION| + |FALLBACK_TAIL|
  {
    FALLBACK_HEAD + QUOTED_EXPRESSION + FALLBACK_TAIL
  }

  /** As written, every issuer gets the same fallback, and it is not the intended one. */
  lemma FallbackAsWrittenIgnoresIssuer(a: string, b: string)
    ensures FallbackSrcAsWritten(a) == FallbackSrcAsWritten(b)
    ensures FallbackSrcAsWritten(a) != FallbackSrc(a)
  {
    assert |QUOTED_EXPRESSION| == 44;
  }

  /** The concrete input: two issuers of the site's certifications share one fallback. */
  lemma FallbackAsWrittenExample()
    ensures FallbackSrcAsWritten("Cisco") == FallbackSrcAsWritten("RIT & Excelerate")
    ensures FallbackSrc("Cisco") != FallbackSrc("RIT & Excelerate")
  {
    var c, r := FallbackSrc("Cisco"), FallbackSrc("RIT & Excelerate");
    assert c[|FALLBACK_HEAD|] == 'C' && r[|FALLBACK_HEAD|] == 'R';
  }

  /**
   * The fallback `src` the handler evidently means: head, then the issuer's
   * initial, then tail.
   */
  function FallbackSrc(issuer: string): (src: string)
    ensures FALLBACK_HEAD <= src
    ensures |src| == |FALLBACK_HEAD| + |Initial(issuer)| + |FALLBACK_TAIL|
    ensures src[|FALLBACK_HEAD|..|FALLBACK_HEAD| + |Initial(issuer)|] == Initial(issuer)
    ensures src[|src| - |FALLBACK_TAIL|..] == FALLBACK_TAIL
  {
    FALLBACK_HEAD + Initial(issuer) + FALLBACK_TAIL
  }

  /** The initial a fallback `src` carries: what lies between head and tail. */
  function InitialIn(src: string): string {
    if |src| >= |FALLBACK_HEAD| + |FALLBACK_TAIL| then src[|FALLBACK_HEAD|..|src| - |FALLBACK_TAIL|] else ""
  }

  /** The fallback carries the issuer's initial, and it can be read back. */
  lemma FallbackCarriesInitial(issuer: string)
    ensures InitialIn(FallbackSrc(issuer)) == Initial(issuer)
    ensures issuer != [] ==> InitialIn(FallbackSrc(issuer)) == [issuer[0]]
  {
    var src := FallbackSrc(issuer);
    assert src[|FALLBACK_HEAD|..|src| - |FALLBACK_TAIL|] == Initial(issuer);
  }

  /** Two issuers share a fallback exactly when they share an initial. */
  lemma FallbackSharedIffInitialShared(a: string, b: string)
    ensures FallbackSrc(a) == FallbackSrc(b) <==> Initial(a) == Initial(b)
  {
    FallbackCarriesInitial(a);
    FallbackCarriesInitial(b);
  }

  /** The tooltip drawn while the badge is hovered: the certification's name and date. */
  datatype Tooltip = Tooltip(name: string, date: string)

  class Badge {
    const certification: Certification

    /** `isHovered`. */
    var isHovered: bool

    /** The `src` attribute of the badge image. */
    var src: string

    /** A new badge is not hovered and shows the certification's badge image. */
    constructor (certification: Certification)
      ensures this.certification == certification
      ensures !isHovered && src == certification.badgeUrl
    {
      this.certification := certification;
      isHovered := false;
      src := certification.badgeUrl;
    }

    /** `onMouseEnter`. */
    method MouseEnter()
      modifies this
      ensures isHovered && src == old(src)
    {
      isHovered := true;
    }

    /** `onMouseLeave`. */
    method MouseLeave()
      modifies this
      ensures !isHovered && src == old(src)
    {
      isHovered := false;
    }

    /**
     * `onError` of the image: the `src` is overwritten with the fallback.
     * A failing fallback raises the event again, which writes the same value.
     */
    method ImageError()
      modifies this
      ensures src == FallbackSrc(certification.issuer)
      ensures isHovered == old(isHovered)
    {
      src := FallbackSrc(certification.issuer);
    }

    /** The tooltip with name and date, drawn iff the badge is hovered. */
    function ShownTooltip(): (t: Option<Tooltip>)
      reads this
      ensures t.Some? <==> isHovered
      ensures t.Some? ==> t.value.name == certification.name && t.value.date == certification.date
    {
      if isHovered then Some(Tooltip(certification.name, certification.date)) else None
    }
  }

  /** Entering and then leaving puts a badge back in its first state; the image is untouched. */
  method HoverAndLeave(badge: Badge)
    modifies badge
    ensures !badge.isHovered && badge.src == old(badge.src)
    ensures badge.ShownTooltip() == None
  {
    badge.MouseEnter();
    assert badge.ShownTooltip().Some?;
    badge.MouseLeave();
  }

  /** A second image error changes nothing: the fallback is a fixed point of the handler. */
  method ImageErrorTwice(badge: Badge)
    modifies badge
    ensures badge.src == FallbackSrc(badge.certification.issuer)
    ensures badge.isHovered == old(badge.isHovered)
  {
    badge.ImageError();
    ghost var first := badge.src;
    badge.ImageError();
    assert badge.src == first;
  }
}
