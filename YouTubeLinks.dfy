/** The string handling `PlaySongCommand` does on a query before any lookup:
    unwrapping `<...>`, recognising playlist links, and extracting the
    playlist id and the video id from a link. Query strings are read as
    `key=value` pairs separated by `&`. */
module YouTubeLinks {
  import opened Wrappers
  import opened Text

  /** The `videoQuery` argument parser, `p.replace(/<(.+)>/g, '$1')`: every
      `<...>` group (greedy, on one line, at least one character inside) is
      replaced by its contents. */
  function ParseVideoQuery(p: string): string {
    ReplaceBracketed(p, '<', '>', 1, true)
  }

  /** A link wrapped in angle brackets, as chat users write it to suppress
      the preview, comes out bare. */
  lemma UnwrapsAngleBrackets(link: string)
    requires |link| >= 1 && NoLineTerminator(link)
    ensures ParseVideoQuery("<" + link + ">") == link
  {
    ReplaceBracketedGroup(link, '<', '>', 1, true);
    assert "<" + link + ">" == ['<'] + link + ['>'];
  }

  /** A query without `<` is passed on as typed. */
  lemma PlainQueryUnchanged(q: string)
    requires forall i | 0 <= i < |q| :: q[i] != '<'
    ensures ParseVideoQuery(q) == q
  {
    ReplaceBracketedNoOpen(q, '<', '>', 1, true);
  }

  /** `s` matches `pat` where every `.` of `pat` stands for any character
      except a line terminator (the unescaped dots of the source's pattern). */
  predicate WildMatch(s: string, pat: string) {
    |s| == |pat| &&
    forall i | 0 <= i < |s| :: if pat[i] == '.' then !IsLineTerminator(s[i]) else s[i] == pat[i]
  }

  /** `r` is `host/playlist` followed by the rest of one line. */
  predicate HostThenPlaylist(r: string, host: string) {
    |r| >= |host| + 9 &&
    WildMatch(r[..|host|], host) &&
    r[|host|..|host| + 9] == "/playlist" &&
    NoLineTerminator(r[|host| + 9..])
  }

  /** The text after `http://` or `https://`. */
  function AfterScheme(u: string): Option<string> {
    if IsPrefix("https://", u) then Some(u[8..])
    else if IsPrefix("http://", u) then Some(u[7..])
    else None
  }

  /** `/^https?:\/\/(www.youtube.com|youtube.com)\/playlist(.*)$/`. */
  predicate IsPlaylistUrl(u: string) {
    match AfterScheme(u)
    case None => false
    case Some(r) => HostThenPlaylist(r, "www.youtube.com") || HostThenPlaylist(r, "youtube.com")
  }

  /** A pattern matches its own text: a `.` stands for itself. */
  lemma WildMatchSelf(p: string)
    ensures WildMatch(p, p)
  {
  }

  /** Every `https://www.youtube.com/playlist...` link on one line, such as
      `https://www.youtube.com/playlist?list=<id>`, is recognised. */
  lemma PlaylistLinkRecognised(rest: string)
    requires NoLineTerminator(rest)
    ensures IsPlaylistUrl("https://" + "www.youtube.com" + "/playlist" + rest)
  {
    var host, path := "www.youtube.com", "/playlist";
    var r := host + path + rest;
    var u := "https://" + host + path + rest;
    assert u == "https://" + r;
    assert IsPrefix("https://", u) && u[8..] == r;
    assert r[..|host|] == host && r[|host|..|host| + 9] == path && r[|host| + 9..] == rest;
    WildMatchSelf(host);
  }

  /** A short link is never taken for a playlist. */
  lemma ShortLinkIsNotPlaylist(id: string)
    ensures !IsPlaylistUrl("https://youtu.be/" + id)
  {
    var u := "https://youtu.be/" + id;
    assert IsPrefix("https://", u);
    var r := u[8..];
    assert r[0] == 'y' && r[5] == '.' && r[6] == 'b';
  }

  /** `url.split('?')[1]`: the text between the first and second `?`. */
  function QueryString(url: string): Option<string> {
    var parts := Split(url, {'?'});
    if |parts| >= 2 then Some(parts[1]) else None
  }

  /** The key of a `key=value` pair: everything before the first `=`. */
  function PairKey(pair: string): string {
    match FirstIndexIn(pair, '=', 0, |pair|)
    case Some(i) => pair[..i]
    case None => pair
  }

  /** The value of a pair: everything after the first `=`, or empty. */
  function PairValue(pair: string): string {
    match FirstIndexIn(pair, '=', 0, |pair|)
    case Some(i) => pair[i + 1..]
    case None => ""
  }

  /** The value of the first pair whose key is `key`. */
  function LookupPair(pairs: seq<string>, key: string): (r: Option<string>)
    ensures r.Some? <==> exists i | 0 <= i < |pairs| :: PairKey(pairs[i]) == key
    decreases |pairs|
  {
    if |pairs| == 0 then None
    else if PairKey(pairs[0]) == key then Some(PairValue(pairs[0]))
    else
      var r := LookupPair(pairs[1..], key);
      assert forall i | 1 <= i < |pairs| :: pairs[i] == pairs[1..][i - 1];
      r
  }

  /** `parse(query)[key]`. */
  function QueryValue(query: string, key: string): Option<string> {
    LookupPair(Split(query, {'&'}), key)
  }

  /** `key=value` read back as `value`, for a key without `=`. */
  lemma PairRoundTrip(key: string, value: string)
    requires forall i | 0 <= i < |key| :: key[i] != '='
    ensures PairKey(key + "=" + value) == key && PairValue(key + "=" + value) == value
  {
    var p := key + "=" + value;
    var f := FirstIndexIn(p, '=', 0, |p|);
    assert p[|key|] == '=';
    assert f == Some(|key|);
  }

  /** `getPlaylistID`: the `list` parameter of the link's query string. */
  function PlaylistId(url: string): Option<string> {
    match QueryString(url)
    case None => None
    case Some(q) => QueryValue(q, "list")
  }

  /** The link the command prints for a playlist gives that playlist's id
      back. */
  lemma PlaylistIdRoundTrip(id: string)
    requires forall i | 0 <= i < |id| :: id[i] != '?' && id[i] != '&'
    ensures PlaylistId("https://www.youtube.com/playlist?list=" + id) == Some(id)
  {
    var base := "https://www.youtube.com/playlist";
    var q := "list=" + id;
    assert "https://www.youtube.com/playlist?list=" + id == base + ['?'] + q;
    SplitAtSeparator(base, '?', q, {'?'});
    SplitNoSeparator(q, {'?'});
    SplitNoSeparator(q, {'&'});
    PairRoundTrip("list", id);
    assert "list" + "=" + id == q;
  }

  predicate IsIdChar(c: char) {
    ('a' <= c <= 'z') || ('A' <= c <= 'Z') || ('0' <= c <= '9') || c == '-' || c == '_'
  }

  /** The length of the longest suffix of id characters. */
  function IdSuffixLen(s: string): (n: nat)
    ensures n <= |s|
    ensures forall i | |s| - n <= i < |s| :: IsIdChar(s[i])
    ensures n < |s| ==> !IsIdChar(s[|s| - n - 1])
    decreases |s|
  {
    if |s| == 0 || !IsIdChar(s[|s| - 1]) then 0
    else
      var n := IdSuffixLen(s[..|s| - 1]);
      assert forall i | |s| - 1 - n <= i < |s| - 1 :: s[i] == s[..|s| - 1][i];
      1 + n
  }

  /** `url.match(/\/[a-zA-Z0-9-_]+$/i)[0].slice(1)`: the final `/segment`
      when it is made of id characters only. */
  function TrailingId(s: string): (r: Option<string>)
    ensures r.Some? ==> |r.value| >= 1 && |r.value| < |s| && s[|s| - |r.value|..] == r.value
                        && s[|s| - |r.value| - 1] == '/'
                        && forall i | 0 <= i < |r.value| :: IsIdChar(r.value[i])
    ensures r.None? ==> forall p | 0 <= p < |s| - 1 && s[p] == '/' ::
                          exists j | p < j < |s| :: !IsIdChar(s[j])
  {
    var n := IdSuffixLen(s);
    if n >= 1 && n < |s| && s[|s| - n - 1] == '/' then Some(s[|s| - n..])
    else
      assert forall p | 0 <= p < |s| - 1 && s[p] == '/' :: p < |s| - n - 1 && !IsIdChar(s[|s| - n - 1]);
      None
  }

  /** `getVideoID`: a link mentioning `youtu.be` (in any case) names the video
      by its last path segment, any other link by its `v` query parameter. */
  function VideoId(url: string): Option<string> {
    if Contains(LowerAscii(url), "youtu.be") then TrailingId(url)
    else match QueryString(url)
      case None => None
      case Some(q) => QueryValue(q, "v")
  }

  /** The id of a short link is its path. */
  lemma ShortLinkId(id: string)
    requires |id| >= 1 && forall i | 0 <= i < |id| :: IsIdChar(id[i])
    ensures VideoId("https://youtu.be/" + id) == Some(id)
  {
    var u := "https://youtu.be/" + id;
    var low := LowerAscii(u);
    assert low[8..16] == "youtu.be";
    ContainsAt(low, "youtu.be", 8);
    var n := IdSuffixLen(u);
    assert u[|u| - |id| - 1] == '/';
    assert n == |id|;
    assert u[|u| - n..] == id;
  }

  /** For a link that does not mention `youtu.be`, the id is the `v`
      parameter of its query string. */
  lemma WatchLinkId(page: string, id: string)
    requires forall i | 0 <= i < |page| :: page[i] != '?'
    requires forall i | 0 <= i < |id| :: id[i] != '?' && id[i] != '&'
    requires !Contains(LowerAscii(page + "?v=" + id), "youtu.be")
    ensures VideoId(page + "?v=" + id) == Some(id)
  {
    var q := "v=" + id;
    assert page + "?v=" + id == page + ['?'] + q;
    SplitAtSeparator(page, '?', q, {'?'});
    SplitNoSeparator(q, {'?'});
    SplitNoSeparator(q, {'&'});
    PairRoundTrip("v", id);
    assert "v" + "=" + id == q;
  }
}
