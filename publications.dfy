/**
 * The publications section (src/components/sections/Publications.tsx): the
 * section's own list of papers, the status badge's text and colour, the
 * authors line, the venue line, the PDF and DOI links, and the message shown
 * when the list is empty.
 */
module Publications {
  import opened Types
  import opened Sequences

  const AUTHOR := "MD Mohimul Alam"

  const VOTING_PAPER: Publication := Publication(
    "pub-1",
    "Blockchain-Based Voting System with Hyperledger Fabric and React Interface",
    [AUTHOR],
    None,
    Some("Springer CCIS, ICDSAIA 2025"),
    "2025",
    None,
    Some("/portfolio/public/publications/voting-paper.pdf"),
    "This paper presents a comprehensive blockchain-based voting system implemented using Hyperledger Fabric with a modern React interface, ensuring secure and transparent electoral processes.",
    ["Blockchain", "Hyperledger Fabric", "Voting System", "React", "Smart Contracts"],
    Published)

  const HEALTH_MONITORING_PAPER: Publication := Publication(
    "pub-2",
    "Real-Time Patient Health Monitoring Using IoT Sensors and Blockchain Technology",
    [AUTHOR],
    None,
    None,
    "2024",
    None,
    Some("/portfolio/public/publications/ESP32.pdf"),
    "Research paper on ESP32-based health monitoring system with ECG and SpO2 sensors integrated into a Hyperledger Fabric blockchain network for secure real-time patient data management.",
    ["IoT", "ESP32", "ECG", "SpO2", "Blockchain", "Healthcare", "Hyperledger Fabric"],
    Published)

  const DATA_EXCHANGE_PAPER: Publication := Publication(
    "pub-3",
    "Healthcare Data Exchange Network",
    [AUTHOR],
    None,
    None,
    "2024",
    None,
    None,
    "Paper in progress focusing on secure private blockchain implementation for hospitals, enabling seamless and secure healthcare data exchange while maintaining patient privacy and regulatory compliance.",
    ["Blockchain", "Healthcare", "Data Exchange", "Private Network", "HIPAA"],
    UnderReview)

  const EXTENDED_VOTING_PAPER: Publication := Publication(
    "pub-4",
    "Extended Blockchain Voting Framework with Zero-Knowledge Proofs and Threshold Encryption",
    [AUTHOR],
    Some("SN Computer Science"),
    None,
    "2025",
    None,
    Some("/portfolio/public/publications/Extend.pdf"),
    "Journal extension in progress presenting an advanced blockchain voting framework incorporating Zero-Knowledge Proofs for voter privacy and Threshold Encryption for enhanced security and auditability.",
    ["Blockchain", "Zero-Knowledge Proofs", "Threshold Encryption", "Voting System", "Cryptography"],
    Preprint)

  /** `PUBLICATIONS`, the list the section renders, in its order. */
  const PUBLICATIONS: seq<Publication> := [VOTING_PAPER, HEALTH_MONITORING_PAPER, DATA_EXCHANGE_PAPER, EXTENDED_VOTING_PAPER]

  const PUBLISHED_COLOR := "bg-green-500/20 text-green-400 border-green-500/30"
  const UNDER_REVIEW_COLOR := "bg-yellow-500/20 text-yellow-400 border-yellow-500/30"
  const PREPRINT_COLOR := "bg-blue-500/20 text-blue-400 border-blue-500/30"
  const DEFAULT_COLOR := "bg-slate-500/20 text-slate-400 border-slate-500/30"

  /**
   * `getStatusColor`: a switch on the raw status string; anything that is
   * not one of the three statuses falls to the slate default.
   */
  function StatusColor(status: string): (cls: string)
    ensures cls == DEFAULT_COLOR <==> ParseStatus(status).None?
    ensures cls in {PUBLISHED_COLOR, UNDER_REVIEW_COLOR, PREPRINT_COLOR, DEFAULT_COLOR}
    ensures status == "published" ==> cls == PUBLISHED_COLOR
    ensures status == "under-review" ==> cls == UNDER_REVIEW_COLOR
    ensures status == "preprint" ==> cls == PREPRINT_COLOR
  {
    match status
    case "published" => PUBLISHED_COLOR
    case "under-review" => UNDER_REVIEW_COLOR
    case "preprint" => PREPRINT_COLOR
    case _ => DEFAULT_COLOR
  }

  /** Each status has a colour of its own. */
  lemma StatusColorsDistinct(a: PublicationStatus, b: PublicationStatus)
    ensures StatusColor(StatusName(a)) == StatusColor(StatusName(b)) <==> a == b
  {
  }

  /**
   * `getStatusText`: the three statuses get a display label; any other
   * string is shown as it is.
   */
  function StatusText(status: string): (text: string)
    ensures text == status <==> ParseStatus(status).None?
    ensures ParseStatus(status).Some? ==> text in {"Published", "Under Review", "Preprint"}
  {
    match status
    case "published" => "Published"
    case "under-review" => "Under Review"
    case "preprint" => "Preprint"
    case _ => status
  }

  /** The label of each status of the closed union. */
  lemma StatusTextOfStatus(s: PublicationStatus)
    ensures StatusText(StatusName(s)) == match s
      case Published => "Published"
      case UnderReview => "Under Review"
      case Preprint => "Preprint"
  {
  }

  /** JavaScript `a || b` on optional strings: `a` when it is truthy, else `b`. */
  function Or(a: Option<string>, b: Option<string>): (r: Option<string>)
    ensures Present(r) <==> Present(a) || Present(b)
  {
    if Present(a) then a else b
  }

  /**
   * The venue line: `journal || conference`, drawn only when that is truthy.
   * `None` means the line is not drawn.
   */
  function Venue(p: Publication): (v: Option<string>)
    ensures v.Some? <==> Present(p.journal) || Present(p.conference)
    ensures v.Some? ==> v.value != ""
    ensures Present(p.journal) ==> v == p.journal
    ensures !Present(p.journal) && Present(p.conference) ==> v == p.conference
  {
    var venue := Or(p.journal, p.conference);
    if Present(venue) then venue else None
  }

  /** The PDF link: drawn, with the URL as it is, iff `pdfUrl` is truthy. */
  function PdfLink(p: Publication): (link: Option<string>)
    ensures link.Some? <==> Present(p.pdfUrl)
    ensures link.Some? ==> link == p.pdfUrl
  {
    if Present(p.pdfUrl) then p.pdfUrl else None
  }

  const DOI_RESOLVER := "https://doi.org/"

  /** The DOI link: drawn iff `doi` is truthy, pointing at the DOI resolver. */
  function DoiLink(p: Publication): (link: Option<string>)
    ensures link.Some? <==> Present(p.doi)
    ensures link.Some? ==> DOI_RESOLVER <= link.value && |link.value| > |DOI_RESOLVER|
  {
    if Present(p.doi) then Some(DOI_RESOLVER + p.doi.value) else None
  }

  /** What a DOI link points at: the URL with the resolver prefix taken off. */
  function DoiOf(url: string): (doi: Option<string>)
    ensures doi.Some? <==> DOI_RESOLVER <= url
  {
    if DOI_RESOLVER <= url then Some(url[|DOI_RESOLVER|..]) else None
  }

  /** The link drawn for a DOI leads back to exactly that DOI. */
  lemma DoiLinkRoundTrip(p: Publication)
    requires Present(p.doi)
    ensures DoiOf(DoiLink(p).value) == p.doi
  {
    var url := DOI_RESOLVER + p.doi.value;
    assert url[|DOI_RESOLVER|..] == p.doi.value;
  }

  const SEPARATOR := ", "

  /** `authors.join(', ')`. */
  function JoinAuthors(authors: seq<string>): (line: string)
    ensures |authors| > 0 ==> authors[0] <= line
    ensures |authors| > 0 ==> |line| == TotalLength(authors) + 2 * (|authors| - 1)
    ensures |authors| == 0 ==> line == ""
  {
    if |authors| == 0 then ""
    else if |authors| == 1 then authors[0]
    else authors[0] + SEPARATOR + JoinAuthors(authors[1..])
  }

  /** Number of characters in all the given names together. */
  function TotalLength(names: seq<string>): nat {
    if names == [] then 0 else |names[0]| + TotalLength(names[1..])
  }

  /** A name with no `", "` inside it. */
  ghost predicate NoSeparator(name: string) {
    forall j :: 0 <= j < |name| - 1 ==> !(name[j] == ',' && name[j + 1] == ' ')
  }

  /** The first position at or after `from` where `", "` starts, or `|s|` if none does. */
  function FirstSeparator(s: string, from: nat): (i: nat)
    requires from <= |s|
    ensures from <= i <= |s|
    ensures i < |s| ==> i + 1 < |s| && s[i] == ',' && s[i + 1] == ' '
    ensures forall j :: from <= j < i && j + 1 < |s| ==> !(s[j] == ',' && s[j + 1] == ' ')
    decreases |s| - from
  {
    if from + 1 >= |s| then |s|
    else if s[from] == ',' && s[from + 1] == ' ' then from
    else FirstSeparator(s, from + 1)
  }

  /** Cutting an authors line back into names at every `", "`. */
  function SplitAuthors(line: string): (names: seq<string>)
    ensures |names| > 0
    decreases |line|
  {
    var i := FirstSeparator(line, 0);
    if i == |line| then [line] else [line[..i]] + SplitAuthors(line[i + 2..])
  }

  /** A name without a separator has none to be found in it. */
  lemma {:induction false} NoSeparatorFound(s: string, from: nat)
    requires from <= |s| && NoSeparator(s)
    ensures FirstSeparator(s, from) == |s|
    decreases |s| - from
  {
    if from + 1 < |s| {
      NoSeparatorFound(s, from + 1);
    }
  }

  /** In `name + ", " + rest` the first separator is the one after `name`. */
  lemma {:induction false} SeparatorAfterName(name: string, rest: string, from: nat)
    requires from <= |name| && NoSeparator(name)
    ensures FirstSeparator(name + SEPARATOR + rest, from) == |name|
    decreases |name| - from
  {
    var s := name + SEPARATOR + rest;
    if from < |name| {
      assert s[from] == name[from];
      if from + 1 < |name| {
        assert s[from + 1] == name[from + 1];
      } else {
        assert s[from + 1] == ',';
      }
      SeparatorAfterName(name, rest, from + 1);
    } else {
      assert s[from] == ',' && s[from + 1] == ' ';
    }
  }

  /**
   * The authors line can be read back into the authors' names, provided
   * there is at least one and no name itself contains `", "`.
   */
  lemma {:induction false} SplitJoinRoundTrip(authors: seq<string>)
    requires |authors| > 0
    requires forall a :: a in authors ==> NoSeparator(a)
    ensures SplitAuthors(JoinAuthors(authors)) == authors
  {
    if |authors| == 1 {
      NoSeparatorFound(authors[0], 0);
    } else {
      var rest := JoinAuthors(authors[1..]);
      var line := authors[0] + SEPARATOR + rest;
      SeparatorAfterName(authors[0], rest, 0);
      assert line[..|authors[0]|] == authors[0];
      assert line[|authors[0]| + 2..] == rest;
      assert authors[1] in authors;
      SplitJoinRoundTrip(authors[1..]);
      assert authors == [authors[0]] + authors[1..];
    }
  }

  /** "No publications available yet." is drawn iff the list is empty. */
  predicate ShowsEmptyMessage(pubs: seq<Publication>): (empty: bool)
    ensures empty <==> forall p :: p !in pubs
  {
    assert pubs != [] ==> pubs[0] in pubs;
    |pubs| == 0
  }

  /** Publication ids, the keys of the list. */
  function PublicationIds(pubs: seq<Publication>): seq<string> {
    Map(pubs, (p: Publication) => p.id)
  }

  /**
   * On the section's data: four papers with distinct ids, so the empty
   * message is not drawn; the first is shown at its conference, the last in
   * its journal, the second and third without a venue; the third has no PDF
   * link and none has a DOI link.
   */
  lemma SitePublications()
    ensures AllDistinct(PublicationIds(PUBLICATIONS))
    ensures !ShowsEmptyMessage(PUBLICATIONS)
    ensures Venue(VOTING_PAPER) == Some("Springer CCIS, ICDSAIA 2025")
    ensures Venue(HEALTH_MONITORING_PAPER) == None && Venue(DATA_EXCHANGE_PAPER) == None
    ensures Venue(EXTENDED_VOTING_PAPER) == Some("SN Computer Science")
    ensures PdfLink(DATA_EXCHANGE_PAPER) == None
    ensures forall p :: p in PUBLICATIONS ==> (PdfLink(p).Some? <==> p != DATA_EXCHANGE_PAPER)
    ensures forall p :: p in PUBLICATIONS ==> DoiLink(p) == None
    ensures forall p :: p in PUBLICATIONS ==> JoinAuthors(p.authors) == AUTHOR
  {
  }
}
