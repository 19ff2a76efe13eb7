/** What a developer card shows of a row: the status badge colour, the
    social links, the bio and skills previews, and the fallbacks used for
    missing columns. */
module Card {
  import opened Common
  import opened Text
  import opened Records

  /** The colour scheme of the status badge (green, yellow, red or gray classes). */
  datatype Badge = Green | Yellow | Red | Gray

  /** `getAvailabilityColor`: the status is compared lower-cased, so any
      spelling of "available", "busy" or "unavailable" gets its colour and
      every other status, the missing one included, gets gray. */
  function AvailabilityColor(status: string): (b: Badge)
    ensures b == Green <==> ToLower(status) == "available"
    ensures b == Yellow <==> ToLower(status) == "busy"
    ensures b == Red <==> ToLower(status) == "unavailable"
  {
    var s := ToLower(status);
    if s == "available" then Green
    else if s == "busy" then Yellow
    else if s == "unavailable" then Red
    else Gray
  }

  /** Only the lower-cased status matters. */
  lemma ColorIgnoresCase(status: string)
    ensures AvailabilityColor(ToLower(status)) == AvailabilityColor(status)
  {
    ToLowerIdempotent(status);
  }

  /** Two statuses that differ only in the case of their letters get the
      same colour. */
  lemma SameColorUpToCase(s: string, t: string)
    requires ToLower(s) == ToLower(t)
    ensures AvailabilityColor(s) == AvailabilityColor(t)
  {
  }

  datatype Platform = GitHub | LinkedIn | Portfolio | EmailLink

  datatype SocialLink = SocialLink(platform: Platform, url: string)

  /** The position of each platform in the card's fixed order. */
  function Rank(p: Platform): (r: nat)
    ensures r < 4
  {
    match p
    case GitHub => 0
    case LinkedIn => 1
    case Portfolio => 2
    case EmailLink => 3
  }

  /** The e-mail link's target: `mailto:` and the address, or nothing for a
      missing address. */
  function MailTo(email: string): (url: string)
    ensures email == "" ==> url == ""
    ensures email != "" ==> url == "mailto:" + email && StartsWith(url, "mailto:")
  {
    if email != "" then "mailto:" + email else ""
  }

  /** The four candidate links in their fixed order, before filtering. */
  function Candidates(row: DeveloperRow): (links: seq<SocialLink>)
    ensures |links| == 4
    ensures forall i :: 0 <= i < 4 ==> Rank(links[i].platform) == i
  {
    [SocialLink(GitHub, row.github_url), SocialLink(LinkedIn, row.linkedin_url),
     SocialLink(Portfolio, row.portfolio_url), SocialLink(EmailLink, MailTo(row.email))]
  }

  /** `.filter(link => link.url)`: the links with a non-empty URL, in order. */
  function KeepWithUrl(links: seq<SocialLink>): (r: seq<SocialLink>)
    ensures |r| <= |links|
    ensures forall i :: 0 <= i < |r| ==> r[i].url != ""
  {
    if |links| == 0 then []
    else if links[0].url != "" then [links[0]] + KeepWithUrl(links[1..])
    else KeepWithUrl(links[1..])
  }

  /** A link survives the filter exactly when it was there with a URL. */
  lemma {:induction false} KeepWithUrlMembers(links: seq<SocialLink>, l: SocialLink)
    ensures l in KeepWithUrl(links) <==> l in links && l.url != ""
  {
    if |links| > 0 {
      KeepWithUrlMembers(links[1..], l);
      assert links == [links[0]] + links[1..];
    }
  }

  /** Links in strictly increasing platform order. */
  predicate Ordered(links: seq<SocialLink>) {
    forall i, j :: 0 <= i < j < |links| ==> Rank(links[i].platform) < Rank(links[j].platform)
  }

  /** Filtering keeps the order of what it keeps. */
  lemma {:induction false} KeepWithUrlOrdered(links: seq<SocialLink>)
    requires Ordered(links)
    ensures Ordered(KeepWithUrl(links))
  {
    if |links| > 0 {
      KeepWithUrlOrdered(links[1..]);
      var rest := KeepWithUrl(links[1..]);
      forall l | l in rest
        ensures Rank(links[0].platform) < Rank(l.platform)
      {
        KeepWithUrlMembers(links[1..], l);
        var j :| 0 <= j < |links[1..]| && links[1..][j] == l;
        assert links[j + 1] == l;
      }
    }
  }

  /** The `socialLinks` list of the card. */
  function SocialLinks(row: DeveloperRow): (links: seq<SocialLink>)
    ensures |links| <= 4
    ensures forall i :: 0 <= i < |links| ==> links[i].url != ""
  {
    KeepWithUrl(Candidates(row))
  }

  /** The links come in the order GitHub, LinkedIn, Portfolio, Email. */
  lemma SocialLinksOrdered(row: DeveloperRow)
    ensures Ordered(SocialLinks(row))
  {
    KeepWithUrlOrdered(Candidates(row));
  }

  /** Each platform is listed, with its column's URL, exactly when that
      column is non-empty; the e-mail link points at `mailto:` and the
      address. */
  lemma SocialLinksPresence(row: DeveloperRow)
    ensures SocialLink(GitHub, row.github_url) in SocialLinks(row) <==> row.github_url != ""
    ensures SocialLink(LinkedIn, row.linkedin_url) in SocialLinks(row) <==> row.linkedin_url != ""
    ensures SocialLink(Portfolio, row.portfolio_url) in SocialLinks(row) <==> row.portfolio_url != ""
    ensures SocialLink(EmailLink, "mailto:" + row.email) in SocialLinks(row) <==> row.email != ""
    ensures forall l :: l in SocialLinks(row) ==> l in Candidates(row)
  {
    var c := Candidates(row);
    KeepWithUrlMembers(c, SocialLink(GitHub, row.github_url));
    KeepWithUrlMembers(c, SocialLink(LinkedIn, row.linkedin_url));
    KeepWithUrlMembers(c, SocialLink(Portfolio, row.portfolio_url));
    KeepWithUrlMembers(c, SocialLink(EmailLink, "mailto:" + row.email));
    forall l | l in SocialLinks(row)
      ensures l in c
    {
      KeepWithUrlMembers(c, l);
    }
  }

  /** `socialLinks.slice(0, 4)`: the first four links, or all of them when
      there are fewer. */
  function CardLinks(row: DeveloperRow): (links: seq<SocialLink>)
    ensures |links| <= 4 && |links| <= |SocialLinks(row)| && links == SocialLinks(row)[..|links|]
    ensures |SocialLinks(row)| <= 4 ==> |links| == |SocialLinks(row)|
  {
    var all := SocialLinks(row);
    all[..if |all| < 4 then |all| else 4]
  }

  /** With only four candidates the card's cut at four never hides a link. */
  lemma CardShowsEveryLink(row: DeveloperRow)
    ensures CardLinks(row) == SocialLinks(row)
  {
    var all := SocialLinks(row);
    assert all[..|all|] == all;
  }

  const BioLimit: nat := 100
  const Ellipsis: string := "..."

  /** The card's bio text: a bio over 100 characters is cut to its first
      100 followed by "...", a shorter one is shown whole. */
  function BioPreview(bio: string): (r: string)
    ensures |bio| <= BioLimit ==> r == bio
    ensures |bio| > BioLimit ==> |r| == BioLimit + 3 && r[..BioLimit] == bio[..BioLimit] && r[BioLimit..] == Ellipsis
    ensures |r| <= BioLimit + 3
  {
    if |bio| > BioLimit then bio[..BioLimit] + Ellipsis else bio
  }

  /** The preview starts with the bio's first characters, as many as fit. */
  lemma BioPreviewKeepsStart(bio: string)
    ensures var n := if |bio| < BioLimit then |bio| else BioLimit;
      |BioPreview(bio)| >= n && BioPreview(bio)[..n] == bio[..n]
  {
  }

  /** The skills preview: up to three skills and, when more exist, a badge
      "+k" naming how many are hidden. */
  datatype SkillsPreview = SkillsPreview(shown: seq<string>, more: Option<string>)

  const PreviewCount: nat := 3

  function PreviewSkills(skills: seq<string>): (p: SkillsPreview)
    ensures |p.shown| == (if |skills| < PreviewCount then |skills| else PreviewCount)
    ensures p.shown == skills[..|p.shown|]
    ensures p.more.Some? <==> |skills| > PreviewCount
  {
    var n := |skills|;
    if n > PreviewCount then SkillsPreview(skills[..PreviewCount], Some("+" + NatToDecimal(n - PreviewCount)))
    else SkillsPreview(skills, None)
  }

  /** The badge reads back as the number of hidden skills, so the shown
      skills and the badge account for the whole list. */
  lemma PreviewAccountsForAll(skills: seq<string>)
    requires |skills| > PreviewCount
    ensures var p := PreviewSkills(skills);
      p.more.value[0] == '+' &&
      ParseInt(p.more.value[1..]) == Some(|skills| - |p.shown|)
  {
    var p := PreviewSkills(skills);
    var k := |skills| - PreviewCount;
    assert p.more.value[1..] == NatToDecimal(k);
    assert IntToDecimal(k) == NatToDecimal(k);
    ParseIntOfDecimal(k);
  }

  const DefaultPhotoCard: string := "https://images.unsplash.com/photo-1472099645785-5658abf4ff4e?w=600&h=600&fit=crop&crop=face"
  const DefaultPhotoModal: string := "https://images.unsplash.com/photo-1472099645785-5658abf4ff4e?w=400&h=400&fit=crop&crop=face"
  const DefaultStatusLabel: string := "Available"

  /** `value || fallback` for a text column. */
  function OrElse(value: string, fallback: string): (r: string)
    ensures value != "" ==> r == value
    ensures value == "" ==> r == fallback
  {
    if value != "" then value else fallback
  }

  /** The location line: the row's location, or Mogadishu. */
  function LocationShown(row: DeveloperRow): (r: string)
    ensures r != ""
    ensures row.location != "" ==> r == row.location
    ensures row.location == "" ==> r == DefaultLocation
  {
    OrElse(row.location, DefaultLocation)
  }

  /** The badge text: the row's status as stored, or "Available". */
  function StatusLabel(row: DeveloperRow): (r: string)
    ensures r != ""
    ensures row.availability_status != "" ==> r == row.availability_status
    ensures row.availability_status == "" ==> r == DefaultStatusLabel
  {
    OrElse(row.availability_status, DefaultStatusLabel)
  }

  /** `experience_years || 0`: a missing column reads as 0. */
  function ExperienceShown(row: DeveloperRow): (years: int)
    ensures row.experience_years.None? ==> years == 0
    ensures row.experience_years.Some? ==> years == row.experience_years.value
  {
    match row.experience_years
    case Some(n) => n
    case None => 0
  }

  /** The photo on the card and in the modal: the row's photo, or a stock portrait. */
  function PhotoShown(row: DeveloperRow, inModal: bool): (url: string)
    ensures url != ""
    ensures row.photo_url != "" ==> url == row.photo_url
    ensures row.photo_url == "" ==> url == (if inModal then DefaultPhotoModal else DefaultPhotoCard)
  {
    OrElse(row.photo_url, if inModal then DefaultPhotoModal else DefaultPhotoCard)
  }
}
