/**
 * The two fixed patterns of the invite filter, written as substring searches:
 *   INVITE_REGEX  `(discord\.gg|discord\.com\/invite)\/\S+`
 *   URL_REGEX     `https?://[^\s]+`
 * `re.search` succeeds when, at some position of the text, one of the literal
 * prefixes occurs and is followed by at least one non-whitespace character.
 */
module LinkPatterns {

  /** The code points for which Python's `str.isspace` holds, listed one by one:
      the ASCII controls TAB..CR and FS..US, SPACE, NEL, NO-BREAK SPACE, OGHAM
      SPACE MARK, EN QUAD..HAIR SPACE, LINE and PARAGRAPH SEPARATOR, NARROW
      NO-BREAK SPACE, MEDIUM MATHEMATICAL SPACE and IDEOGRAPHIC SPACE. */
  const PythonWhitespace: set<int> := {
    0x09, 0x0A, 0x0B, 0x0C, 0x0D, 0x1C, 0x1D, 0x1E, 0x1F, 0x20, 0x85, 0xA0, 0x1680,
    0x2000, 0x2001, 0x2002, 0x2003, 0x2004, 0x2005, 0x2006, 0x2007, 0x2008, 0x2009, 0x200A,
    0x2028, 0x2029, 0x202F, 0x205F, 0x3000 }

  /** Python's `\s` in a str pattern, written with ranges. */
  function IsSpace(c: char): (space: bool)
    ensures space <==> c as int in PythonWhitespace
  {
    var k := c as int;
    || k == 0x20 || 0x09 <= k <= 0x0D || 0x1C <= k <= 0x1F
    || k == 0x85 || k == 0xA0 || k == 0x1680 || 0x2000 <= k <= 0x200A
    || k == 0x2028 || k == 0x2029 || k == 0x202F || k == 0x205F || k == 0x3000
  }

  /** `marker` starts at position `i` of `s` and a non-space character follows it. */
  predicate MatchAt(s: string, marker: string, i: nat) {
    i + |marker| < |s| && s[i..i + |marker|] == marker && !IsSpace(s[i + |marker|])
  }

  /** What `re.search` promises: a match starts somewhere in `s`. */
  ghost predicate Occurs(s: string, marker: string) {
    exists i: nat :: MatchAt(s, marker, i)
  }

  /** Scans `s` from position `i` onwards for a match. */
  function SearchFrom(s: string, marker: string, i: nat): (found: bool)
    requires i <= |s|
    ensures found <==> exists j: nat :: i <= j && MatchAt(s, marker, j)
    decreases |s| - i
  {
    if i + |marker| >= |s| then false
    else if MatchAt(s, marker, i) then true
    else SearchFrom(s, marker, i + 1)
  }

  function Search(s: string, marker: string): (found: bool)
    ensures found <==> Occurs(s, marker)
  {
    SearchFrom(s, marker, 0)
  }

  const InviteMarkers: seq<string> := ["discord.gg/", "discord.com/invite/"]
  const UrlMarkers: seq<string> := ["http://", "https://"]

  /** `re.search(INVITE_REGEX, content)` */
  function HasInviteLink(content: string): (found: bool)
    ensures found <==> Occurs(content, "discord.gg/") || Occurs(content, "discord.com/invite/")
  {
    Search(content, InviteMarkers[0]) || Search(content, InviteMarkers[1])
  }

  /** `re.search(URL_REGEX, content)`; `https?` is either of the two prefixes. */
  function HasUrl(content: string): (found: bool)
    ensures found <==> Occurs(content, "http://") || Occurs(content, "https://")
  {
    Search(content, UrlMarkers[0]) || Search(content, UrlMarkers[1])
  }

  /** A match survives any text written before or after it. */
  lemma {:induction false} OccursInContext(pre: string, s: string, post: string, marker: string)
    requires Occurs(s, marker)
    ensures Occurs(pre + s + post, marker)
  {
    var i: nat :| MatchAt(s, marker, i);
    var t := pre + s + post;
    var j := |pre| + i;
    assert t[j..j + |marker|] == s[i..i + |marker|];
    assert t[j + |marker|] == s[i + |marker|];
    assert MatchAt(t, marker, j);
  }

  /** A marker followed by one non-space character matches, wherever it stands. */
  lemma {:induction false} MarkerThenChar(pre: string, marker: string, c: char, post: string)
    requires !IsSpace(c)
    ensures Occurs(pre + marker + [c] + post, marker)
  {
    var t := pre + marker + [c] + post;
    var j := |pre|;
    assert t[j..j + |marker|] == marker;
    assert t[j + |marker|] == c;
    assert MatchAt(t, marker, j);
  }

  /** A marker followed only by whitespace, or by nothing, is no match. */
  lemma {:induction false} MarkerThenSpaceOnly(marker: string, w: string)
    requires forall k :: 0 <= k < |w| ==> IsSpace(w[k])
    ensures !Occurs(marker + w, marker)
  {
    var t := marker + w;
    forall i: nat | i + |marker| < |t|
      ensures !MatchAt(t, marker, i)
    {
      assert t[i + |marker|] == w[i];
    }
  }

  /** Both patterns together: the inputs that an invite link or a URL are caught by. */
  lemma InviteLinkAnywhere(pre: string, c: char, post: string)
    requires !IsSpace(c)
    ensures HasInviteLink(pre + "discord.gg/" + [c] + post)
    ensures HasInviteLink(pre + "discord.com/invite/" + [c] + post)
  {
    MarkerThenChar(pre, InviteMarkers[0], c, post);
    MarkerThenChar(pre, InviteMarkers[1], c, post);
  }

  lemma UrlAnywhere(pre: string, c: char, post: string)
    requires !IsSpace(c)
    ensures HasUrl(pre + "http://" + [c] + post)
    ensures HasUrl(pre + "https://" + [c] + post)
  {
    MarkerThenChar(pre, UrlMarkers[0], c, post);
    MarkerThenChar(pre, UrlMarkers[1], c, post);
  }
}
