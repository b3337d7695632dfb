/** The string and URL logic of `DocsCommand`, and its per-version cache of
    the fetched documentation. The fuzzy search over the documentation and
    the type rendering are not part of this model. */
module Docs {
  import opened Wrappers
  import opened Text

  datatype Version = Stable | Master | Commando {
    function Name(): string {
      match this
      case Stable => "stable"
      case Master => "master"
      case Commando => "commando"
    }
  }

  /** The `version` argument: lower-cased, it must be one of the three
      names (otherwise the framework asks again, `None` here); when absent
      it is `stable`. */
  function ParseVersion(raw: Option<string>): (r: Option<Version>)
    ensures raw.None? ==> r == Some(Stable)
    ensures raw.Some? ==> (r.Some? <==> LowerAscii(raw.value) in {"stable", "master", "commando"})
    ensures r.Some? && raw.Some? ==> r.value.Name() == LowerAscii(raw.value)
  {
    match raw
    case None => Some(Stable)
    case Some(s) =>
      var v := LowerAscii(s);
      if v == "stable" then Some(Stable)
      else if v == "master" then Some(Master)
      else if v == "commando" then Some(Commando)
      else None
  }

  /** Every version's own name is read back as that version. */
  lemma VersionNameRoundTrip(v: Version)
    ensures ParseVersion(Some(v.Name())) == Some(v)
  {
    var n := v.Name();
    forall i | 0 <= i < |n|
      ensures !('A' <= n[i] <= 'Z')
    {
    }
    LowerAsciiKeepsLower(n);
    assert LowerAscii(n) == n;
    if v != Stable {
      assert n[0] != 's';
      assert n != "stable";
    }
    if v == Commando {
      assert n[0] != 'm';
      assert n != "master";
    }
  }

  /** The name is matched without regard to case: a spelling and its
      lower-case form select the same version. */
  lemma VersionIgnoresCase(s: string)
    ensures ParseVersion(Some(s)) == ParseVersion(Some(LowerAscii(s)))
  {
    LowerAsciiIdempotent(s);
  }

  /** The `query` argument, `p.split(/[#.]/)`. */
  function SplitQuery(p: string): (r: seq<string>)
    ensures |r| >= 1
    ensures forall k, i | 0 <= k < |r| && 0 <= i < |r[k]| :: r[k][i] != '#' && r[k][i] != '.'
  {
    Split(p, {'#', '.'})
  }

  /** `Cls#member` and `Cls.member` are both read as the class and the member. */
  lemma QuerySplitsAtSeparator(cls: string, sep: char, member: string)
    requires sep == '#' || sep == '.'
    requires forall i | 0 <= i < |cls| :: cls[i] != '#' && cls[i] != '.'
    requires forall i | 0 <= i < |member| :: member[i] != '#' && member[i] != '.'
    ensures SplitQuery(cls + [sep] + member) == [cls, member]
  {
    SplitAtSeparator(cls, sep, member, {'#', '.'});
    SplitNoSeparator(member, {'#', '.'});
  }

  /** `input`: `main` is the first part; `sub` the second with every
      parenthesised group removed (`/(\(.*\))/gm`, greedy on one line), or
      `None` when there is no non-empty second part. */
  datatype Input = Input(main: string, sub: Option<string>)

  function ParseInput(query: seq<string>): (r: Input)
    requires |query| >= 1
    ensures r.main == query[0]
    ensures r.sub.None? <==> |query| < 2 || query[1] == ""
  {
    Input(query[0],
          if |query| >= 2 && query[1] != "" then Some(ReplaceBracketed(query[1], '(', ')', 0, false)) else None)
  }

  /** Whether the member branch runs: `if (input.sub)`, which an empty
      string fails. */
  predicate WantsMember(input: Input) {
    input.sub.Some? && input.sub.value != ""
  }

  /** A member written with its call parentheses is looked up by name. */
  lemma MemberCallParensDropped(name: string, args: string)
    requires NoLineTerminator(args)
    requires forall i | 0 <= i < |name| :: name[i] != '('
    requires |name| >= 1
    ensures ParseInput(["Client", name + "(" + args + ")"]).sub == Some(name)
  {
    ReplaceBracketedPrefix(name, ['('] + args + [')'], '(', ')', 0, false);
    ReplaceBracketedGroup(args, '(', ')', 0, false);
    assert name + "(" + args + ")" == name + (['('] + args + [')']);
    assert name + "" == name;
  }

  /** A member name alone is kept as typed. */
  lemma PlainMemberKept(q: seq<string>)
    requires |q| >= 2 && q[1] != "" && forall i | 0 <= i < |q[1]| :: q[1][i] != '('
    ensures ParseInput(q).sub == Some(q[1]) && WantsMember(ParseInput(q))
  {
    ReplaceBracketedNoOpen(q[1], '(', ')', 0, false);
  }

  /** `sourceBaseURL`. */
  function SourceBaseUrl(v: Version): string {
    "https://github.com/discordjs/" + if v == Commando then "commando/blob/master" else "discord.js/blob/" + v.Name()
  }

  /** The documentation JSON fetched for a version. */
  function FetchUrl(v: Version): string {
    RawHost + if v == Commando then "Gawdl3y/discord.js-commando/docs/master.json"
              else "discordjs/discord.js/docs/" + v.Name() + ".json"
  }

  const RawHost := "https://raw.githubusercontent.com/"

  /** `docsBaseURL` of `docifyLink`. */
  function DocsBaseUrl(v: Version): string {
    "https://discord.js.org/#/docs/" + if v == Commando then "commando/master" else "main/" + v.Name()
  }

  /** Different versions are fetched from different places, so the cache
      never hands one version's documentation out for another's. */
  lemma FetchUrlInjective(v: Version, w: Version)
    requires v != w
    ensures FetchUrl(v) != FetchUrl(w)
  {
    var c := "Gawdl3y/discord.js-commando/docs/master.json";
    var p := "discordjs/discord.js/docs/";
    assert c[0] == 'G' && p[0] == 'd';
    assert FetchUrl(v)[|RawHost|..] != FetchUrl(w)[|RawHost|..] by {
      if v != Commando && w != Commando {
        assert (p + v.Name() + ".json")[|p|] == v.Name()[0];
        assert (p + w.Name() + ".json")[|p|] == w.Name()[0];
      }
    }
  }

  /** The author line of the reply. */
  function AuthorLabel(v: Version): string {
    if v == Commando then "Commando Docs" else "Discord.JS Docs (" + v.Name() + ")"
  }

  /** The reply names its version: different versions get different author
      lines, documentation links and source links. */
  lemma VersionsDistinguished(v: Version, w: Version)
    requires v != w
    ensures AuthorLabel(v) != AuthorLabel(w)
    ensures DocsBaseUrl(v) != DocsBaseUrl(w)
    ensures SourceBaseUrl(v) != SourceBaseUrl(w)
  {
    var author := "Discord.JS Docs (";
    var docsHost := "https://discord.js.org/#/docs/";
    var sourceHost := "https://github.com/discordjs/";
    var blob := "discord.js/blob/";
    if v != Commando && w != Commando {
      assert v.Name()[0] != w.Name()[0];
      assert AuthorLabel(v)[|author|] == v.Name()[0];
      assert AuthorLabel(w)[|author|] == w.Name()[0];
      assert DocsBaseUrl(v)[|docsHost| + 5] == v.Name()[0];
      assert DocsBaseUrl(w)[|docsHost| + 5] == w.Name()[0];
      assert SourceBaseUrl(v)[|sourceHost| + |blob|] == v.Name()[0];
      assert SourceBaseUrl(w)[|sourceHost| + |blob|] == w.Name()[0];
    } else {
      var other := if v == Commando then w else v;
      assert AuthorLabel(Commando)[0] == 'C' && AuthorLabel(other)[0] == 'D';
      assert DocsBaseUrl(Commando)[|docsHost|] == 'c' && DocsBaseUrl(other)[|docsHost|] == 'm';
      assert SourceBaseUrl(Commando)[|sourceHost|] == 'c' && SourceBaseUrl(other)[|sourceHost|] == 'd';
    }
  }

  /** The reply when nothing is found: the query parts joined with `.`. */
  function NotFoundMessage(query: seq<string>, v: Version): string {
    "could not find an item for `" + Join(query, ".") + "` in the "
      + (if v == Commando then "Commando" else "Discord.JS " + v.Name()) + " docs."
  }

  /** The not-found reply quotes the query as typed, with `#` written as `.`. */
  lemma NotFoundQuotesQuery(p: string, v: Version)
    ensures NotFoundMessage(SplitQuery(p), v)
         == "could not find an item for `" + SubstChars(p, {'#', '.'}, '.') + "` in the "
            + (if v == Commando then "Commando" else "Discord.JS " + v.Name()) + " docs."
  {
    JoinSplit(p, {'#', '.'}, '.');
  }

  datatype Entry = Entry(name: string)

  /** The parts of a documentation file the model uses. */
  datatype DocsJson = DocsJson(classes: seq<Entry>, typedefs: seq<Entry>)

  /** `docifyLink`: a class page when `docs.classes` has an entry named
      `prop`, a typedef page otherwise. */
  function DocifyLink(prop: string, v: Version, docs: DocsJson): (r: string)
    ensures (exists i | 0 <= i < |docs.classes| :: docs.classes[i].name == prop) ==>
      r == DocsBaseUrl(v) + "/class/" + prop
    ensures (forall i | 0 <= i < |docs.classes| :: docs.classes[i].name != prop) ==>
      r == DocsBaseUrl(v) + "/typedef/" + prop
  {
    DocsBaseUrl(v) + "/" + (if HasClass(docs.classes, prop) then "class" else "typedef") + "/" + prop
  }

  /** `docs.classes.find(el => el.name === prop)` found something. */
  function HasClass(classes: seq<Entry>, prop: string): (r: bool)
    ensures r <==> exists i | 0 <= i < |classes| :: classes[i].name == prop
    decreases |classes|
  {
    if |classes| == 0 then false
    else if classes[0].name == prop then true
    else
      var r := HasClass(classes[1..], prop);
      assert forall i | 1 <= i < |classes| :: classes[i] == classes[1..][i - 1];
      r
  }

  /** The page of an entry that is both a class and a typedef is its class
      page: only the classes are searched. */
  lemma ClassWinsOverTypedef(prop: string, v: Version, docs: DocsJson, i: nat)
    requires i < |docs.classes| && docs.classes[i].name == prop
    ensures DocifyLink(prop, v, docs) == DocsBaseUrl(v) + "/class/" + prop
  {
  }

  /** `text.replace(/<\/?(?:info|warn)>/g, '')`. */
  function StripTags(s: string): string
    decreases |s|
  {
    if |s| == 0 then ""
    else if s[0] != '<' then [s[0]] + StripTags(s[1..])
    else if IsPrefix("<info>", s) || IsPrefix("<warn>", s) then StripTags(s[6..])
    else if IsPrefix("</info>", s) || IsPrefix("</warn>", s) then StripTags(s[7..])
    else [s[0]] + StripTags(s[1..])
  }

  /** `text.replace(/{@link (.+?)}/g, '`$1`')`: from `{@link ` the lazy
      group runs to the FIRST `}` after at least one character, on the same
      line. */
  function Links(s: string): string
    decreases |s|
  {
    if |s| == 0 then ""
    else if s[0] != '{' then [s[0]] + Links(s[1..])
    else if IsPrefix("{@link ", s) then
      match FirstIndexIn(s, '}', 8, LineEnd(s, 7))
      case Some(j) => "`" + s[7..j] + "`" + Links(s[j + 1..])
      case None => [s[0]] + Links(s[1..])
    else [s[0]] + Links(s[1..])
  }

  /** Dropping tags only removes characters: a character the text lacks
      is not in the result. */
  lemma {:induction false} StripTagsKeepsOut(s: string, c: char)
    requires forall i | 0 <= i < |s| :: s[i] != c
    ensures forall i | 0 <= i < |StripTags(s)| :: StripTags(s)[i] != c
    decreases |s|
  {
    if |s| > 0 {
      if s[0] != '<' || !(IsPrefix("<info>", s) || IsPrefix("<warn>", s) || IsPrefix("</info>", s) || IsPrefix("</warn>", s)) {
        StripTagsKeepsOut(s[1..], c);
      } else if IsPrefix("<info>", s) || IsPrefix("<warn>", s) {
        StripTagsKeepsOut(s[6..], c);
      } else {
        StripTagsKeepsOut(s[7..], c);
      }
    }
  }

  /** Rewriting links adds only backquotes. */
  lemma {:induction false} LinksKeepsOut(s: string, c: char)
    requires c != '`' && forall i | 0 <= i < |s| :: s[i] != c
    ensures forall i | 0 <= i < |Links(s)| :: Links(s)[i] != c
    decreases |s|
  {
    if |s| > 0 {
      if s[0] == '{' && IsPrefix("{@link ", s) && FirstIndexIn(s, '}', 8, LineEnd(s, 7)).Some? {
        var j := FirstIndexIn(s, '}', 8, LineEnd(s, 7)).value;
        LinksKeepsOut(s[j + 1..], c);
      } else {
        LinksKeepsOut(s[1..], c);
      }
    }
  }

  /** `clean`: newlines become spaces, the info and warn tags go, and links
      become inline code. */
  function Clean(text: string): (r: string)
    ensures forall i | 0 <= i < |r| :: r[i] != '\n'
  {
    var spaced := SubstChars(text, {'\n'}, ' ');
    StripTagsKeepsOut(spaced, '\n');
    LinksKeepsOut(StripTags(spaced), '\n');
    Links(StripTags(spaced))
  }

  /** Each of the four tags is dropped where it stands. */
  lemma StripTagAtFront(tag: string, b: string)
    requires tag == "<info>" || tag == "</info>" || tag == "<warn>" || tag == "</warn>"
    ensures StripTags(tag + b) == StripTags(b)
  {
    var s := tag + b;
    assert s[..|tag|] == tag;
    assert s[|tag|..] == b;
    if |tag| == 7 {
      assert s[1] == '/';
      assert !IsPrefix("<info>", s) && !IsPrefix("<warn>", s);
    }
  }

  /** Text before the first `<` passes through untouched. */
  lemma {:induction false} StripTagsPlainPrefix(p: string, rest: string)
    requires forall i | 0 <= i < |p| :: p[i] != '<'
    ensures StripTags(p + rest) == p + StripTags(rest)
    decreases |p|
  {
    if |p| == 0 {
      assert p + rest == rest;
    } else {
      var s := p + rest;
      assert s[0] == p[0] && s[1..] == p[1..] + rest;
      StripTagsPlainPrefix(p[1..], rest);
      assert [p[0]] + p[1..] == p;
    }
  }

  /** Text before the first `<` is kept, and the tag after it dropped. */
  lemma StripTagsDropsTag(a: string, tag: string, b: string)
    requires forall i | 0 <= i < |a| :: a[i] != '<'
    requires tag == "<info>" || tag == "</info>" || tag == "<warn>" || tag == "</warn>"
    ensures StripTags(a + tag + b) == a + StripTags(b)
  {
    StripTagsPlainPrefix(a, tag + b);
    StripTagAtFront(tag, b);
    assert a + tag + b == a + (tag + b);
  }

  /** A text without `<` has no tags to drop. */
  lemma {:induction false} StripTagsNoTag(s: string)
    requires forall i | 0 <= i < |s| :: s[i] != '<'
    ensures StripTags(s) == s
    decreases |s|
  {
    if |s| > 0 {
      StripTagsNoTag(s[1..]);
      assert [s[0]] + s[1..] == s;
    }
  }

  /** `{@link x}` becomes `` `x` ``, and the rewrite goes on after the first
      `}`: the group is lazy, so a later `}` does not widen it. */
  lemma LinkRewritten(x: string, rest: string)
    requires |x| >= 1 && NoLineTerminator(x)
    requires forall i | 0 <= i < |x| :: x[i] != '}'
    ensures Links("{@link " + x + "}" + rest) == "`" + x + "`" + Links(rest)
  {
    var s := "{@link " + x + "}" + rest;
    assert IsPrefix("{@link ", s);
    var j := 7 + |x|;
    assert s[j] == '}';
    assert forall i | 7 <= i < j :: s[i] == x[i - 7];
    var k := LineEnd(s, 7);
    assert forall i | 7 <= i <= j :: !IsLineTerminator(s[i]);
    assert k > j;
    assert FirstIndexIn(s, '}', 8, k) == Some(j);
    assert s[7..j] == x;
    assert s[j + 1..] == rest;
  }

  /** Text before the first `{` passes through untouched. */
  lemma {:induction false} LinksPlainPrefix(p: string, rest: string)
    requires forall i | 0 <= i < |p| :: p[i] != '{'
    ensures Links(p + rest) == p + Links(rest)
    decreases |p|
  {
    if |p| == 0 {
      assert p + rest == rest;
    } else {
      var s := p + rest;
      assert s[0] == p[0] && s[1..] == p[1..] + rest;
      LinksPlainPrefix(p[1..], rest);
      assert [p[0]] + p[1..] == p;
    }
  }

  /** A text without `{` has no links to rewrite. */
  lemma LinksNoBrace(s: string)
    requires forall i | 0 <= i < |s| :: s[i] != '{'
    ensures Links(s) == s
  {
    LinksPlainPrefix(s, "");
    assert s + "" == s;
  }

  /** Plain description text (no newline, tag or link) comes out of
      `clean` as it went in. */
  lemma CleanKeepsPlainText(t: string)
    requires forall i | 0 <= i < |t| :: t[i] != '\n' && t[i] != '<' && t[i] != '{'
    ensures Clean(t) == t
  {
    assert SubstChars(t, {'\n'}, ' ') == t;
    StripTagsNoTag(t);
    LinksNoBrace(t);
  }

  /** What one download of a version's documentation gives: the request
      fails, the body is not JSON, or it parses to the documentation. */
  datatype Download = NetworkFailure | BadJson | Parsed(json: DocsJson)

  /** The documentation fetched so far, by version (`this.docs`). The
      source stores the pending `res.json()` before it settles, so a body
      that fails to parse stays in the cache as a failure (`None`). */
  class DocsCache {
    var docs: map<Version, Option<DocsJson>>

    constructor ()
      ensures docs == map[]
    {
      docs := map[];
    }

    /** `fetchDocs`: a stored version is answered from the cache, failure
        included; otherwise a failed request stores nothing, and a response
        is stored and returned, parsed or failed. */
    method FetchDocs(v: Version, download: Download) returns (r: Option<DocsJson>)
      modifies this
      ensures v in old(docs) ==> r == old(docs)[v] && docs == old(docs)
      ensures v !in old(docs) && download == NetworkFailure ==> r == None && docs == old(docs)
      ensures v !in old(docs) && download == BadJson ==> r == None && docs == old(docs)[v := None]
      ensures v !in old(docs) && download.Parsed? ==> r == Some(download.json) && docs == old(docs)[v := r]
    {
      if v in docs {
        return docs[v];
      }
      match download
      case NetworkFailure =>
        r := None;
      case BadJson =>
        r := None;
        docs := docs[v := r];
      case Parsed(json) =>
        r := Some(json);
        docs := docs[v := r];
    }

    /** Once a request for a version got a response, asking again gives
        the same answer whatever a second download would return; a cached
        version is answered from the cache both times. */
    method FetchTwice(v: Version, first: Download, second: Download)
      returns (a: Option<DocsJson>, b: Option<DocsJson>)
      modifies this
      ensures v in old(docs) || first != NetworkFailure ==> b == a
      ensures v in old(docs) ==> a == b == old(docs)[v]
      ensures v !in old(docs) && first == NetworkFailure ==> a == None
    {
      a := FetchDocs(v, first);
      b := FetchDocs(v, second);
    }
  }
}
