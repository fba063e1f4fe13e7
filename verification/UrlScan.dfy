/** The first pass: the automaton `parse_url_char` and what it reads.
    (nghttp2_test/client/url-parser/url_parser.c:214-360, 548-604) */
module UrlScan {
  import opened Options
  import opened UrlChars

  datatype UrlState =
    | Dead
    | SpacesBeforeUrl
    | Schema
    | SchemaSlash
    | SchemaSlashSlash
    | ServerStart
    | Server
    | ServerWithAt
    | Path
    | QueryStart
    | QueryString
    | FragmentStart
    | FragmentText

  /** One transition of the first automaton. */
  function ParseUrlChar(s: UrlState, ch: char): UrlState {
    if ch == ' ' || ch == '\r' || ch == '\n' then Dead
    else if ch == '\t' || ch == 12 as char then Dead
    else match s
      case SpacesBeforeUrl =>
        if ch == '/' || ch == '*' then Path else if IsAlpha(ch) then Schema else Dead
      case Schema =>
        if IsAlpha(ch) then Schema else if ch == ':' then SchemaSlash else Dead
      case SchemaSlash =>
        if ch == '/' then SchemaSlashSlash else Dead
      case SchemaSlashSlash =>
        if ch == '/' then ServerStart else Dead
      case ServerWithAt =>
        if ch == '@' then Dead else ServerChar(ch)
      case ServerStart => ServerChar(ch)
      case Server => ServerChar(ch)
      case Path =>
        if IsUrlChar(ch) then Path else if ch == '?' then QueryStart else if ch == '#' then FragmentStart else Dead
      case QueryStart => QueryChar(ch)
      case QueryString => QueryChar(ch)
      case FragmentStart =>
        if IsUrlChar(ch) then FragmentText else if ch == '?' then FragmentText
        else if ch == '#' then FragmentStart else Dead
      case FragmentText =>
        if IsUrlChar(ch) then FragmentText else if ch == '?' || ch == '#' then FragmentText else Dead
      case Dead => Dead
  }

  function ServerChar(ch: char): UrlState {
    if ch == '/' then Path
    else if ch == '?' then QueryStart
    else if ch == '@' then ServerWithAt
    else if IsUserinfoChar(ch) || ch == '[' || ch == ']' then Server
    else Dead
  }

  function QueryChar(ch: char): UrlState {
    if IsUrlChar(ch) then QueryString
    else if ch == '?' then QueryString
    else if ch == '#' then FragmentStart
    else Dead
  }

  /** What has been read so far, cut at the delimiters. `slashes` counts the characters of
      `://`, `marked` says that the first `?` was read, `hashes` counts the `#` skipped before
      the fragment. */
  datatype Pieces = Pieces(
    scheme: string, slashes: nat, server: string, path: string,
    marked: bool, query: string, hashes: nat, fragment: string)

  const NOTHING := Pieces("", 0, "", "", false, "", 0, "")

  const COLON_SLASH_SLASH: string := "://"

  function QueryText(marked: bool, query: string): string {
    if marked then "?" + query else ""
  }

  function HeadText(p: Pieces): string {
    p.scheme + COLON_SLASH_SLASH[..if p.slashes <= 3 then p.slashes else 3] + p.server
  }

  function TailText(p: Pieces): string {
    p.path + QueryText(p.marked, p.query) + Hashes(p.hashes) + p.fragment
  }

  /** The text that was cut into `p`. */
  function Text(p: Pieces): string {
    HeadText(p) + TailText(p)
  }

  /** Well-formedness: which pieces may be present and what they may hold. */
  predicate Wf(p: Pieces, connect: bool) {
    WfOrder(p, connect) && WfChars(p)
  }

  /** Which pieces may be present, and how they may start. */
  predicate WfOrder(p: Pieces, connect: bool) {
    && p.slashes <= 3
    && (p.slashes > 0 ==> p.scheme != "")
    && (connect ==> p.scheme == "")
    && (p.server != "" ==> AuthorityStarted(p, connect))
    && (p.path != "" ==> PathMayStart(p, connect))
    && (p.marked ==> AuthorityStarted(p, connect) || p.path != "")
    && (p.query != "" ==> p.marked)
    && (p.hashes > 0 ==> p.marked || p.path != "")
    && (p.fragment != "" ==> p.hashes > 0 && p.fragment[0] != '#')
  }

  predicate WfChars(p: Pieces) {
    && All(Letters, p.scheme)
    && All(ServerChars, p.server) && NoDoubleAt(p.server)
    && All(PathChars, p.path)
    && All(QueryChars, p.query)
    && All(FragmentChars, p.fragment)
  }

  predicate AuthorityStarted(p: Pieces, connect: bool) {
    connect || p.slashes == 3
  }

  /** After an authority a path starts with `/`; a bare path may also start with `*`. */
  predicate PathMayStart(p: Pieces, connect: bool)
    requires p.path != ""
  {
    || (AuthorityStarted(p, connect) && p.path[0] == '/')
    || (!connect && p.scheme == "" && p.server == "" && (p.path[0] == '/' || p.path[0] == '*'))
  }

  /** The automaton's state is determined by the pieces read. */
  function StateOf(p: Pieces, connect: bool): UrlState {
    if p.fragment != "" then FragmentText
    else if p.hashes > 0 then FragmentStart
    else if p.query != "" then QueryString
    else if p.marked then QueryStart
    else if p.path != "" then Path
    else if p.server != "" then if Last(p.server) == '@' then ServerWithAt else Server
    else if connect || p.slashes >= 3 then ServerStart
    else if p.slashes == 2 then SchemaSlashSlash
    else if p.slashes == 1 then SchemaSlash
    else if p.scheme != "" then Schema
    else SpacesBeforeUrl
  }

  /** Adds the character that led to state `s`. */
  function Extend(p: Pieces, s: UrlState, ch: char): Pieces {
    match s
    case Schema => p.(scheme := p.scheme + [ch])
    case SchemaSlash => p.(slashes := p.slashes + 1)
    case SchemaSlashSlash => p.(slashes := p.slashes + 1)
    case ServerStart => p.(slashes := p.slashes + 1)
    case Server => p.(server := p.server + [ch])
    case ServerWithAt => p.(server := p.server + [ch])
    case Path => p.(path := p.path + [ch])
    case QueryStart => p.(marked := true)
    case QueryString => p.(query := p.query + [ch])
    case FragmentStart => p.(hashes := p.hashes + 1)
    case FragmentText => p.(fragment := p.fragment + [ch])
    case Dead => p
    case SpacesBeforeUrl => p
  }

  /** Takes the last character away again. */
  function Chop(p: Pieces): Pieces {
    if p.fragment != "" then p.(fragment := Init(p.fragment))
    else if p.hashes > 0 then p.(hashes := p.hashes - 1)
    else if p.query != "" then p.(query := Init(p.query))
    else if p.marked then p.(marked := false)
    else if p.path != "" then p.(path := Init(p.path))
    else if p.server != "" then p.(server := Init(p.server))
    else if p.slashes > 0 then p.(slashes := p.slashes - 1)
    else if p.scheme != "" then p.(scheme := Init(p.scheme))
    else p
  }

  predicate NoFragment(p: Pieces) {
    p.hashes == 0 && p.fragment == ""
  }

  predicate NoQuery(p: Pieces) {
    !p.marked && p.query == "" && NoFragment(p)
  }

  predicate NoPath(p: Pieces) {
    p.path == "" && NoQuery(p)
  }

  predicate NoServer(p: Pieces) {
    p.server == "" && NoPath(p)
  }

  /** `Extend(p, s, ch)` writes behind everything already read. */
  predicate Appends(p: Pieces, s: UrlState, ch: char) {
    p.slashes <= 3 &&
    match s
    case Schema => p.slashes == 0 && NoServer(p)
    case SchemaSlash => p.slashes == 0 && ch == ':' && NoServer(p)
    case SchemaSlashSlash => p.slashes == 1 && ch == '/' && NoServer(p)
    case ServerStart => p.slashes == 2 && ch == '/' && NoServer(p)
    case Server => NoPath(p)
    case ServerWithAt => NoPath(p)
    case Path => NoQuery(p)
    case QueryStart => ch == '?' && NoQuery(p)
    case QueryString => p.marked && NoFragment(p)
    case FragmentStart => ch == '#' && p.fragment == ""
    case FragmentText => true
    case Dead => false
    case SpacesBeforeUrl => false
  }

  predicate InTail(s: UrlState) {
    s in {Path, QueryStart, QueryString, FragmentStart, FragmentText}
  }

  lemma HeadExtend(p: Pieces, s: UrlState, ch: char)
    requires Appends(p, s, ch)
    requires s in {Schema, SchemaSlash, SchemaSlashSlash, ServerStart, Server, ServerWithAt}
    ensures HeadText(Extend(p, s, ch)) == HeadText(p) + [ch]
    ensures TailText(Extend(p, s, ch)) == TailText(p) == ""
  {
  }

  lemma FragmentExtend(p: Pieces, s: UrlState, ch: char)
    requires Appends(p, s, ch) && s in {FragmentStart, FragmentText}
    ensures TailText(Extend(p, s, ch)) == TailText(p) + [ch]
  {
    assert Hashes(p.hashes + 1) == Hashes(p.hashes) + ['#'];
  }

  lemma QueryExtend(p: Pieces, s: UrlState, ch: char)
    requires Appends(p, s, ch) && s in {QueryStart, QueryString}
    ensures TailText(Extend(p, s, ch)) == TailText(p) + [ch]
  {
  }

  lemma PathExtend(p: Pieces, s: UrlState, ch: char)
    requires Appends(p, s, ch) && s == Path
    ensures TailText(Extend(p, s, ch)) == TailText(p) + [ch]
  {
  }

  lemma TailExtend(p: Pieces, s: UrlState, ch: char)
    requires Appends(p, s, ch)
    requires InTail(s)
    ensures TailText(Extend(p, s, ch)) == TailText(p) + [ch]
  {
    if s == Path {
      PathExtend(p, s, ch);
    } else if s in {QueryStart, QueryString} {
      QueryExtend(p, s, ch);
    } else {
      FragmentExtend(p, s, ch);
    }
  }

  lemma TextExtend(p: Pieces, s: UrlState, ch: char)
    requires Appends(p, s, ch)
    ensures Text(Extend(p, s, ch)) == Text(p) + [ch]
  {
    if InTail(s) {
      TailExtend(p, s, ch);
    } else {
      HeadExtend(p, s, ch);
    }
  }

  lemma ExtendAppends(p: Pieces, ch: char, connect: bool)
    requires WfOrder(p, connect)
    requires ParseUrlChar(StateOf(p, connect), ch) != Dead
    ensures Appends(p, ParseUrlChar(StateOf(p, connect), ch), ch)
  {
  }

  /** The class a character must be in to be added to a piece. */
  function ClassOf(s: UrlState): CharClass {
    match s
    case Schema => Letters
    case Path => PathChars
    case QueryString => QueryChars
    case FragmentText => FragmentChars
    case _ => ServerChars
  }

  predicate IsPiece(s: UrlState) {
    s in {Schema, Server, ServerWithAt, Path, QueryString, FragmentText}
  }

  lemma LiveChar(s: UrlState, ch: char)
    requires IsPiece(ParseUrlChar(s, ch))
    ensures In(ClassOf(ParseUrlChar(s, ch)), ch)
    ensures s == ServerWithAt ==> ch != '@'
  {
  }

  lemma ExtendChars(p: Pieces, s: UrlState, ch: char)
    requires WfChars(p)
    requires IsPiece(s) ==> In(ClassOf(s), ch)
    requires p.server != "" && Last(p.server) == '@' ==> s != ServerWithAt || ch != '@'
    requires s == Server ==> ch != '@'
    ensures WfChars(Extend(p, s, ch))
  {
    if s.Schema? {
      AllSnoc(Letters, p.scheme, ch);
    } else if s.Server? || s.ServerWithAt? {
      AllSnoc(ServerChars, p.server, ch);
    } else if s.Path? {
      AllSnoc(PathChars, p.path, ch);
    } else if s.QueryString? {
      AllSnoc(QueryChars, p.query, ch);
    } else if s.FragmentText? {
      AllSnoc(FragmentChars, p.fragment, ch);
    }
  }

  /** What must have been read before for a character to lead to `s`. */
  predicate Fits(p: Pieces, s: UrlState, ch: char, connect: bool) {
    match s
    case Schema => !connect
    case SchemaSlash => !connect && p.scheme != ""
    case SchemaSlashSlash => !connect
    case ServerStart => !connect
    case Server => AuthorityStarted(p, connect) && ch != '@'
    case ServerWithAt => AuthorityStarted(p, connect) && ch == '@'
    case Path =>
      p.path == "" ==>
        || (AuthorityStarted(p, connect) && ch == '/')
        || (!connect && p.scheme == "" && p.server == "" && (ch == '/' || ch == '*'))
    case QueryStart => AuthorityStarted(p, connect) || p.path != ""
    case QueryString => true
    case FragmentStart => p.marked || p.path != ""
    case FragmentText => p.hashes > 0 && (p.fragment == "" ==> ch != '#')
    case Dead => true
    case SpacesBeforeUrl => true
  }

  lemma HeadFits(p: Pieces, ch: char, connect: bool)
    requires WfOrder(p, connect) && NoPath(p)
    ensures Fits(p, ParseUrlChar(StateOf(p, connect), ch), ch, connect)
  {
  }

  lemma TailFits(p: Pieces, ch: char, connect: bool)
    requires WfOrder(p, connect) && !NoPath(p)
    ensures Fits(p, ParseUrlChar(StateOf(p, connect), ch), ch, connect)
  {
  }

  lemma NextFits(p: Pieces, ch: char, connect: bool)
    requires WfOrder(p, connect)
    ensures Fits(p, ParseUrlChar(StateOf(p, connect), ch), ch, connect)
  {
    if NoPath(p) {
      HeadFits(p, ch, connect);
    } else {
      TailFits(p, ch, connect);
    }
  }

  lemma HeadOrder(p: Pieces, s: UrlState, ch: char, connect: bool)
    requires WfOrder(p, connect) && Appends(p, s, ch) && Fits(p, s, ch, connect) && !InTail(s)
    ensures WfOrder(Extend(p, s, ch), connect)
  {
  }

  lemma TailOrder(p: Pieces, s: UrlState, ch: char, connect: bool)
    requires WfOrder(p, connect) && Appends(p, s, ch) && Fits(p, s, ch, connect) && InTail(s)
    ensures WfOrder(Extend(p, s, ch), connect)
  {
  }

  lemma ExtendOrder(p: Pieces, ch: char, connect: bool)
    requires WfOrder(p, connect)
    requires ParseUrlChar(StateOf(p, connect), ch) != Dead
    ensures WfOrder(Extend(p, ParseUrlChar(StateOf(p, connect), ch), ch), connect)
  {
    var s := ParseUrlChar(StateOf(p, connect), ch);
    ExtendAppends(p, ch, connect);
    NextFits(p, ch, connect);
    if InTail(s) {
      TailOrder(p, s, ch, connect);
    } else {
      HeadOrder(p, s, ch, connect);
    }
  }

  lemma HeadState(p: Pieces, s: UrlState, ch: char, connect: bool)
    requires Appends(p, s, ch) && Fits(p, s, ch, connect) && !InTail(s)
    ensures StateOf(Extend(p, s, ch), connect) == s
  {
  }

  lemma TailState(p: Pieces, s: UrlState, ch: char, connect: bool)
    requires Appends(p, s, ch) && InTail(s)
    ensures StateOf(Extend(p, s, ch), connect) == s
  {
  }

  lemma ExtendState(p: Pieces, ch: char, connect: bool)
    requires WfOrder(p, connect)
    requires ParseUrlChar(StateOf(p, connect), ch) != Dead
    ensures var s := ParseUrlChar(StateOf(p, connect), ch); StateOf(Extend(p, s, ch), connect) == s
  {
    var s := ParseUrlChar(StateOf(p, connect), ch);
    ExtendAppends(p, ch, connect);
    NextFits(p, ch, connect);
    if InTail(s) {
      TailState(p, s, ch, connect);
    } else {
      HeadState(p, s, ch, connect);
    }
  }

  /** A live transition keeps the pieces well-formed and the state determined by them. */
  lemma StepForward(p: Pieces, ch: char, connect: bool)
    requires Wf(p, connect)
    requires ParseUrlChar(StateOf(p, connect), ch) != Dead
    ensures var s := ParseUrlChar(StateOf(p, connect), ch);
            var p' := Extend(p, s, ch);
            Wf(p', connect) && StateOf(p', connect) == s && Text(p') == Text(p) + [ch]
  {
    ExtendAppends(p, ch, connect);
    TextExtend(p, ParseUrlChar(StateOf(p, connect), ch), ch);
    ExtendOrder(p, ch, connect);
    var s := ParseUrlChar(StateOf(p, connect), ch);
    if IsPiece(s) {
      LiveChar(StateOf(p, connect), ch);
    }
    ExtendChars(p, s, ch);
    ExtendState(p, ch, connect);
  }

  lemma ChopOrder(p: Pieces, connect: bool)
    requires WfOrder(p, connect)
    ensures WfOrder(Chop(p), connect)
  {
  }

  lemma ChopChars(p: Pieces)
    requires WfChars(p)
    ensures WfChars(Chop(p))
  {
  }

  /** The last character that was read into `p`. */
  function LastRead(p: Pieces): char
    requires p != NOTHING && p.slashes <= 3
  {
    if p.fragment != "" then Last(p.fragment)
    else if p.hashes > 0 then '#'
    else if p.query != "" then Last(p.query)
    else if p.marked then '?'
    else if p.path != "" then Last(p.path)
    else if p.server != "" then Last(p.server)
    else if p.slashes > 0 then COLON_SLASH_SLASH[p.slashes - 1]
    else Last(p.scheme)
  }

  lemma FragmentStep(s: UrlState, ch: char)
    requires s == FragmentText || (s == FragmentStart && ch != '#')
    requires In(FragmentChars, ch)
    ensures ParseUrlChar(s, ch) == FragmentText
  {
  }

  lemma QueryStep(s: UrlState, ch: char)
    requires (s == QueryStart || s == QueryString) && In(QueryChars, ch)
    ensures ParseUrlChar(s, ch) == QueryString
  {
  }

  lemma PathStep(s: UrlState, ch: char)
    requires In(PathChars, ch)
    requires s == Path || (ch == '/' && s in {SpacesBeforeUrl, ServerStart, Server, ServerWithAt})
             || (ch == '*' && s == SpacesBeforeUrl)
    ensures ParseUrlChar(s, ch) == Path
  {
  }

  lemma LastOfOne(s: string)
    requires s != "" && Init(s) == ""
    ensures Last(s) == s[0]
  {
  }

  lemma ChopFragment(p: Pieces, connect: bool)
    requires WfOrder(p, connect) && p.fragment != "" && In(FragmentChars, Last(p.fragment))
    ensures ParseUrlChar(StateOf(Chop(p), connect), LastRead(p)) == StateOf(p, connect)
  {
    if Init(p.fragment) == "" {
      LastOfOne(p.fragment);
    }
    FragmentStep(StateOf(Chop(p), connect), Last(p.fragment));
  }

  lemma ChopHash(p: Pieces, connect: bool)
    requires WfOrder(p, connect) && p.fragment == "" && p.hashes > 0
    ensures ParseUrlChar(StateOf(Chop(p), connect), LastRead(p)) == StateOf(p, connect)
  {
  }

  lemma ChopQuery(p: Pieces, connect: bool)
    requires WfOrder(p, connect) && NoFragment(p) && p.query != "" && In(QueryChars, Last(p.query))
    ensures ParseUrlChar(StateOf(Chop(p), connect), LastRead(p)) == StateOf(p, connect)
  {
    QueryStep(StateOf(Chop(p), connect), Last(p.query));
  }

  lemma ChopMark(p: Pieces, connect: bool)
    requires WfOrder(p, connect) && NoFragment(p) && p.query == "" && p.marked
    ensures ParseUrlChar(StateOf(Chop(p), connect), LastRead(p)) == StateOf(p, connect)
  {
  }

  /** The states in which a path may start. */
  lemma PathStart(p: Pieces, connect: bool)
    requires WfOrder(p, connect) && NoQuery(p) && p.path != ""
    ensures var s := StateOf(p.(path := ""), connect);
            || (p.path[0] == '/' && s in {SpacesBeforeUrl, ServerStart, Server, ServerWithAt})
            || (p.path[0] == '*' && s == SpacesBeforeUrl)
  {
  }

  lemma ChopPath(p: Pieces, connect: bool)
    requires WfOrder(p, connect) && NoQuery(p) && p.path != "" && In(PathChars, Last(p.path))
    ensures ParseUrlChar(StateOf(Chop(p), connect), LastRead(p)) == StateOf(p, connect)
  {
    if Init(p.path) == "" {
      LastOfOne(p.path);
      PathStart(p, connect);
    }
    PathStep(StateOf(Chop(p), connect), Last(p.path));
  }

  lemma ChopServer(p: Pieces, connect: bool)
    requires Wf(p, connect) && NoPath(p) && p.server != ""
    ensures ParseUrlChar(StateOf(Chop(p), connect), LastRead(p)) == StateOf(p, connect)
  {
  }

  lemma ChopSlash(p: Pieces, connect: bool)
    requires WfOrder(p, connect) && NoServer(p) && p.slashes > 0
    ensures ParseUrlChar(StateOf(Chop(p), connect), LastRead(p)) == StateOf(p, connect)
  {
    assert COLON_SLASH_SLASH[0] == ':' && COLON_SLASH_SLASH[1] == '/' && COLON_SLASH_SLASH[2] == '/';
  }

  lemma ChopScheme(p: Pieces, connect: bool)
    requires WfOrder(p, connect) && NoServer(p) && p.slashes == 0 && p.scheme != "" && IsAlpha(Last(p.scheme))
    ensures ParseUrlChar(StateOf(Chop(p), connect), LastRead(p)) == StateOf(p, connect)
  {
  }

  lemma ChopState(p: Pieces, connect: bool)
    requires Wf(p, connect) && p != NOTHING
    ensures ParseUrlChar(StateOf(Chop(p), connect), LastRead(p)) == StateOf(p, connect)
  {
    if p.fragment != "" {
      ChopFragment(p, connect);
    } else if p.hashes > 0 {
      ChopHash(p, connect);
    } else if p.query != "" {
      ChopQuery(p, connect);
    } else if p.marked {
      ChopMark(p, connect);
    } else if p.path != "" {
      ChopPath(p, connect);
    } else if p.server != "" {
      ChopServer(p, connect);
    } else if p.slashes > 0 {
      ChopSlash(p, connect);
    } else {
      ChopScheme(p, connect);
    }
  }

  lemma ChopExtendHead(p: Pieces, connect: bool)
    requires WfOrder(p, connect) && NoPath(p) && p != NOTHING
    ensures Extend(Chop(p), StateOf(p, connect), LastRead(p)) == p
  {
  }

  lemma ChopExtendTail(p: Pieces, connect: bool)
    requires WfOrder(p, connect) && !NoPath(p)
    ensures Extend(Chop(p), StateOf(p, connect), LastRead(p)) == p
  {
  }

  lemma ChopExtend(p: Pieces, connect: bool)
    requires WfOrder(p, connect) && p != NOTHING
    ensures Extend(Chop(p), StateOf(p, connect), LastRead(p)) == p
  {
    if NoPath(p) {
      ChopExtendHead(p, connect);
    } else {
      ChopExtendTail(p, connect);
    }
  }

  /** Every well-formed nonempty reading was reached by one live transition. */
  lemma StepBack(p: Pieces, connect: bool)
    requires Wf(p, connect) && p != NOTHING
    ensures var p0 := Chop(p);
            var ch := LastRead(p);
            && Wf(p0, connect)
            && ParseUrlChar(StateOf(p0, connect), ch) == StateOf(p, connect) != Dead
            && Extend(p0, StateOf(p, connect), ch) == p
            && Text(p0) + [ch] == Text(p)
  {
    ChopOrder(p, connect);
    ChopChars(p);
    ChopState(p, connect);
    ChopExtend(p, connect);
    StepForward(Chop(p), LastRead(p), connect);
  }

  function Step(p: Pieces, ch: char, connect: bool): Option<Pieces> {
    var s := ParseUrlChar(StateOf(p, connect), ch);
    if s == Dead then None else Some(Extend(p, s, ch))
  }

  lemma StepSound(p: Pieces, p': Pieces, ch: char, connect: bool)
    requires Wf(p, connect) && Step(p, ch, connect) == Some(p')
    ensures Wf(p', connect) && Text(p') == Text(p) + [ch]
  {
    StepForward(p, ch, connect);
  }

  /** The whole first pass as a fold over the buffer. */
  function Scan(b: string, connect: bool): Option<Pieces>
    decreases |b|
  {
    if b == "" then Some(NOTHING)
    else
      match Scan(Init(b), connect)
      case None => None
      case Some(p) => Step(p, Last(b), connect)
  }

  /** What the first pass cuts, it cuts into well-formed pieces of the whole text. */
  lemma {:induction false} ScanSound(b: string, p: Pieces, connect: bool)
    requires Scan(b, connect) == Some(p)
    ensures Wf(p, connect) && Text(p) == b
    decreases |b|
  {
    if b == "" {
      assert Text(NOTHING) == "";
    } else {
      var p0 := Scan(Init(b), connect).value;
      ScanSound(Init(b), p0, connect);
      StepSound(p0, p, Last(b), connect);
      assert b == Init(b) + [Last(b)];
    }
  }

  lemma {:induction false} ScanComplete(p: Pieces, connect: bool)
    requires Wf(p, connect)
    ensures Scan(Text(p), connect) == Some(p)
    decreases |Text(p)|
  {
    if p == NOTHING {
      assert Text(p) == "";
    } else {
      StepBack(p, connect);
      assert Init(Text(p)) == Text(Chop(p));
      ScanComplete(Chop(p), connect);
    }
  }

  /** The first pass survives exactly on the texts of well-formed pieces, and it cuts each
      such text in exactly one way. */
  lemma ScanExact(b: string, p: Pieces, connect: bool)
    ensures Scan(b, connect) == Some(p) <==> Wf(p, connect) && Text(p) == b
  {
    if Scan(b, connect) == Some(p) {
      ScanSound(b, p, connect);
    }
    if Wf(p, connect) && Text(p) == b {
      ScanComplete(p, connect);
    }
  }
}
