/** The Wiki argument vector (core/harness/wiki_tool.go:90-327): which requests are accepted, the argv each
    becomes, and a decoder that shows nothing is lost. */
module WikiArgv {
  import opened Prelude
  import opened Text

  datatype Operation = Map | Ls | Tree | Search | Get | Url | Revs | Restore | Rm | Put | Append | Revert
    | Other(name: string)

  datatype Flag = PrefixFlag | TagFlag | LimitFlag | DepthFlag | NsFlag | RevFlag | TitleFlag | BodyFlag | TagsFlag
    | NoteFlag | MdFlag | AllowEmptyFlag | JsonFlag

  datatype Request = Request(
    skillNames: seq<string>, operation: Operation, page: string, namespace: string, query: string,
    title: string, body: string,
    tags: seq<string>, note: string, prefix: string, tag: string, format: string, revision: int, limit: int, depth: int,
    allowEmpty: bool, approval: string)

  datatype Code =
    | Unsupported | ApprovalNotAllowed | Invalid(field: string) | BodyInvalid | PositionalInvalid | FormatInvalid
    | NumericRange | TagsInvalid | FieldNotAllowed | Required(field: string)

  datatype Invocation = Invocation(operationId: string, arguments: seq<string>, approval: string)

  // ---------------------------------------------------------------- values

  /** The length in bytes of the UTF-8 form. */
  function ByteLength(s: string): nat {
    if s == "" then 0
    else ByteLength(s[..|s| - 1])
         + (if s[|s| - 1] < 0x80 as char then 1 else if s[|s| - 1] < 0x800 as char then 2
            else if (s[|s| - 1] as int) < 0x10000 then 3 else 4)
  }

  predicate HasDisallowedControl(s: string) {
    exists c :: c in s && c < 0x20 as char && c != '\t'
  }

  predicate PlainValue(s: string, max: nat) {
    ByteLength(s) <= max && !HasDisallowedControl(s)
  }

  predicate ValidTag(tag: string) {
    Trim(tag) != "" && ',' !in tag && PlainValue(tag, 128)
  }

  predicate LooksLikeFlag(s: string) {
    var t := Trim(s);
    t != "" && t[0] == '-'
  }

  /** The first fault among the values, in the order they are checked. */
  function ValueFault(r: Request): Option<Code> {
    if !PlainValue(r.page, 2048) then Some(Invalid("page_reference"))
    else if !PlainValue(r.namespace, 128) then Some(Invalid("namespace"))
    else if !PlainValue(r.query, 2048) then Some(Invalid("query"))
    else if !PlainValue(r.title, 512) then Some(Invalid("title"))
    else if !PlainValue(r.note, 4096) then Some(Invalid("note"))
    else if !PlainValue(r.prefix, 256) then Some(Invalid("prefix"))
    else if !PlainValue(r.tag, 128) then Some(Invalid("tag"))
    else if !PlainValue(r.approval, 256) then Some(Invalid("approval"))
    else if ByteLength(r.body) > 786432 || 0 as char in r.body then Some(BodyInvalid)
    else if LooksLikeFlag(r.page) || LooksLikeFlag(r.namespace) || LooksLikeFlag(r.query) then Some(PositionalInvalid)
    else if r.format !in {"", "markdown", "html"} then Some(FormatInvalid)
    else if r.revision < 0 || !(0 <= r.limit <= 200) || !(0 <= r.depth <= 20) then Some(NumericRange)
    else if |r.tags| > 64 || exists tag :: tag in r.tags && !ValidTag(tag) then Some(TagsInvalid)
    else None
  }

  predicate Within(s: string, bytes: nat) {
    ByteLength(s) <= bytes && forall c :: c in s ==> c as int >= 32 || c as int == 9
  }

  predicate NoFlag(s: string) {
    |Trim(s)| > 0 ==> Trim(s)[0] != '-'
  }

  /** Every value is within its bounds, without control characters, and none that stands alone can be taken for a
      flag. */
  predicate ValuesAreSound(r: Request) {
    && Within(r.page, 2048) && Within(r.namespace, 128) && Within(r.query, 2048) && Within(r.title, 512)
    && Within(r.note, 4096) && Within(r.prefix, 256) && Within(r.tag, 128) && Within(r.approval, 256)
    && ByteLength(r.body) <= 786432 && (forall c :: c in r.body ==> c as int != 0)
    && NoFlag(r.page) && NoFlag(r.namespace) && NoFlag(r.query) && r.format in {"", "markdown", "html"}
    && 0 <= r.revision && 0 <= r.limit <= 200 && 0 <= r.depth <= 20
    && |r.tags| <= 64 && forall tag :: tag in r.tags ==> |Trim(tag)| > 0 && ',' !in tag && Within(tag, 128)
  }

  /** The values of a request have no fault exactly when they are sound. */
  lemma FaultlessIsSound(r: Request)
    ensures ValueFault(r).None? <==> ValuesAreSound(r)
  {
    PlainIsWithin(r.page, 2048);
    PlainIsWithin(r.namespace, 128);
    PlainIsWithin(r.query, 2048);
    PlainIsWithin(r.title, 512);
    PlainIsWithin(r.note, 4096);
    PlainIsWithin(r.prefix, 256);
    PlainIsWithin(r.tag, 128);
    PlainIsWithin(r.approval, 256);
    forall tag | tag in r.tags ensures ValidTag(tag) <==> |Trim(tag)| > 0 && ',' !in tag && Within(tag, 128) {
      PlainIsWithin(tag, 128);
    }
  }

  lemma PlainIsWithin(s: string, bytes: nat)
    ensures PlainValue(s, bytes) <==> Within(s, bytes)
  {
  }

  function ReviewedOperation(operation: Operation): Option<string> {
    match operation
    case Map | Ls | Tree | Get | Search | Revs | Url => Some("read")
    case Put | Append | Restore | Revert => Some("write")
    case Rm => Some("delete")
    case Other(_) => None
  }

  function Name(operation: Operation): string {
    match operation
    case Map => "map"
    case Ls => "ls"
    case Tree => "tree"
    case Search => "search"
    case Get => "get"
    case Url => "url"
    case Revs => "revs"
    case Restore => "restore"
    case Rm => "rm"
    case Put => "put"
    case Append => "append"
    case Revert => "revert"
    case Other(name) => name
  }

  function Parse(name: string): Operation {
    if name == "map" then Map else if name == "ls" then Ls
    else if name == "tree" then Tree else if name == "search" then Search
    else if name == "get" then Get else if name == "url" then Url else if name == "revs" then Revs
    else if name == "restore" then Restore else if name == "rm" then Rm else if name == "put" then Put
    else if name == "append" then Append else if name == "revert" then Revert else Other(name)
  }

  function Word(flag: Flag): string {
    match flag
    case PrefixFlag => "--prefix"
    case TagFlag => "--tag"
    case LimitFlag => "--limit"
    case DepthFlag => "--depth"
    case NsFlag => "--ns"
    case RevFlag => "--rev"
    case TitleFlag => "--title"
    case BodyFlag => "--body"
    case TagsFlag => "--tags"
    case NoteFlag => "--note"
    case MdFlag => "--md"
    case AllowEmptyFlag => "--allow-empty"
    case JsonFlag => "--json"
  }

  lemma FlagsDiffer(a: Flag, b: Flag)
    ensures Word(a) == Word(b) <==> a == b
  {
    assert Word(a)[2] == Word(b)[2] && |Word(a)| == |Word(b)| && a != b ==>
      Word(a)[3] != Word(b)[3] || Word(a)[4] != Word(b)[4];
  }

  lemma NamesDiffer(operation: Operation)
    requires !operation.Other?
    ensures Parse(Name(operation)) == operation
  {
  }

  function Format(r: Request): string {
    if r.format == "" then "markdown" else r.format
  }

  // ---------------------------------------------------------------- tags and numbers

  function Join(tags: seq<string>): string
    requires tags != []
  {
    if |tags| == 1 then tags[0] else tags[0] + "," + Join(tags[1..])
  }

  function Comma(s: string): (i: nat)
    ensures i <= |s| && ',' !in s[..i] && (i < |s| ==> s[i] == ',')
  {
    if s == "" || s[0] == ',' then 0
    else
      var i := 1 + Comma(s[1..]);
      assert s[..i] == [s[0]] + s[1..][..i - 1];
      i
  }

  function Split(s: string): seq<string> {
    var i := Comma(s);
    if i == |s| then [s] else [s[..i]] + Split(s[i + 1..])
  }

  lemma CommaIsFirst(s: string, i: nat)
    requires i <= |s| && (i < |s| ==> s[i] == ',') && forall k :: 0 <= k < i ==> s[k] != ','
    ensures Comma(s) == i
  {
    var j := Comma(s);
    assert forall k :: 0 <= k < j ==> s[..j][k] == s[k] && s[..j][k] in s[..j];
  }

  lemma {:induction false} SplitJoin(tags: seq<string>)
    requires tags != [] && forall tag :: tag in tags ==> ',' !in tag
    ensures Split(Join(tags)) == tags
    decreases |tags|
  {
    assert tags[0] in tags;
    if |tags| == 1 {
      CommaIsFirst(tags[0], |tags[0]|);
    } else {
      var rest := Join(tags[1..]);
      CommaIsFirst(Join(tags), |tags[0]|);
      SplitJoin(tags[1..]);
      assert Join(tags)[..|tags[0]|] == tags[0] && Join(tags)[|tags[0]| + 1..] == rest;
    }
  }

  function Digits(n: nat): string {
    (if n < 10 then "" else Digits(n / 10)) + [('0' as int + n % 10) as char]
  }

  function Number(s: string): nat {
    if s == "" then 0
    else 10 * Number(s[..|s| - 1]) + (if '0' <= s[|s| - 1] <= '9' then s[|s| - 1] as int - '0' as int else 0)
  }

  lemma {:induction false} NumberDigits(n: nat)
    ensures Number(Digits(n)) == n && Digits(n) != ""
  {
    var front := if n < 10 then "" else Digits(n / 10);
    assert Digits(n)[..|Digits(n)| - 1] == front;
    if n >= 10 {
      NumberDigits(n / 10);
    }
  }

  // ---------------------------------------------------------------- the argv

  function AppendString(args: seq<string>, flag: Flag, value: string): seq<string> {
    if value == "" then args else args + [Word(flag), value]
  }

  function AppendInt(args: seq<string>, flag: Flag, value: int): seq<string> {
    if value <= 0 then args else args + [Word(flag), Digits(value)]
  }

  function AppendSwitch(args: seq<string>, flag: Flag, on: bool): seq<string> {
    if on then args + [Word(flag)] else args
  }

  /** The request with no field set but its operation, skills and approval. */
  function Bare(r: Request): Request {
    Request(r.skillNames, r.operation, "", "", "", "", "", [], "", "", "", "", 0, 0, 0, false, r.approval)
  }

  /** The fields an operation uses, all others empty. */
  function Used(r: Request): Request {
    match r.operation
    case Map => Bare(r)
    case Ls => Bare(r).(namespace := r.namespace, prefix := r.prefix, tag := r.tag, limit := r.limit)
    case Tree => Bare(r).(namespace := r.namespace, depth := r.depth)
    case Search => Bare(r).(query := r.query, namespace := r.namespace, limit := r.limit)
    case Get => Bare(r).(page := r.page, revision := r.revision)
    case Put =>
      Bare(r).(page := r.page, title := r.title, body := r.body, tags := r.tags, note := r.note, format := r.format,
               allowEmpty := r.allowEmpty)
    case Append => Bare(r).(page := r.page, body := r.body, note := r.note, format := r.format)
    case Revert => Bare(r).(page := r.page, revision := r.revision, note := r.note)
    case _ => Bare(r).(page := r.page)
  }

  /** The first field an operation needs and does not have. */
  function MissingField(r: Request): Option<string> {
    match r.operation
    case Map => None
    case Ls | Tree => if r.namespace == "" then Some("namespace") else None
    case Search => if r.query == "" then Some("query") else None
    case Put =>
      if r.page == "" then Some("page_reference")
      else if Trim(r.title) == "" then Some("title")
      else if Trim(r.body) == "" && !r.allowEmpty then Some("body")
      else None
    case Append => if r.page == "" then Some("page_reference") else if Trim(r.body) == "" then Some("body") else None
    case Revert => if r.page == "" then Some("page_reference") else if r.revision < 1 then Some("revision") else None
    case _ => if r.page == "" then Some("page_reference") else None
  }

  predicate Accepted(r: Request) {
    && ReviewedOperation(r.operation).Some? && (r.approval != "" ==> r.operation.Rm?)
    && ValueFault(r).None? && MissingField(r).None? && r == Used(r)
  }

  function Argv(r: Request): seq<string> {
    match r.operation
    case Map => [Name(r.operation)]
    case Ls =>
      var start := [Name(r.operation), r.namespace];
      AppendInt(AppendString(AppendString(start, PrefixFlag, r.prefix), TagFlag, r.tag), LimitFlag, r.limit)
    case Tree => AppendInt([Name(r.operation), r.namespace], DepthFlag, r.depth)
    case Search => AppendInt(AppendString([Name(r.operation), r.query], NsFlag, r.namespace), LimitFlag, r.limit)
    case Get => AppendInt([Name(r.operation), r.page, Word(JsonFlag)], RevFlag, r.revision)
    case Put =>
      PutTail(AppendString(PutStart(r), TagsFlag, Joined(r.tags)), r)
    case Append => Written([Name(r.operation), r.page, Word(BodyFlag), r.body], r) + [Word(JsonFlag)]
    case Revert =>
      AppendString(AppendInt([Name(r.operation), r.page], RevFlag, r.revision), NoteFlag, r.note)
    case _ => [Name(r.operation), r.page]
  }

  function Joined(tags: seq<string>): string {
    if tags == [] then "" else Join(tags)
  }

  /** The note and the format of a written page. */
  function Written(args: seq<string>, r: Request): seq<string> {
    AppendSwitch(AppendString(args, NoteFlag, r.note), MdFlag, Format(r) == "markdown")
  }

  function PutStart(r: Request): seq<string> {
    [Name(r.operation), r.page, Word(TitleFlag), r.title, Word(BodyFlag), r.body]
  }

  /** After the tags of a put: note, format, the empty switch, and the closing flag. */
  function PutTail(b: seq<string>, r: Request): seq<string> {
    AppendSwitch(Written(b, r), AllowEmptyFlag, r.allowEmpty) + [Word(JsonFlag)]
  }

  /** Field by field, what each belongs to. */
  predicate NothingForeign(r: Request) {
    var op := r.operation;
    && (r.page != "" ==> op !in {Map, Ls, Tree, Search}) && (r.namespace != "" ==> op in {Ls, Tree, Search})
    && (r.query != "" ==> op == Search) && (r.title != "" ==> op == Put) && (r.body != "" ==> op in {Put, Append})
    && (r.note != "" ==> op in {Put, Append, Revert}) && (r.format != "" ==> op in {Put, Append})
    && (r.tags != [] ==> op == Put) && (r.prefix != "" ==> op == Ls) && (r.tag != "" ==> op == Ls)
    && (r.revision != 0 ==> op in {Get, Revert}) && (r.limit != 0 ==> op in {Ls, Search})
    && (r.depth != 0 ==> op == Tree) && (r.allowEmpty ==> op == Put)
  }

  /** And where it must not be missing. */
  predicate NothingMissing(r: Request) {
    var op := r.operation;
    && (op !in {Map, Ls, Tree, Search} ==> r.page != "") && (op in {Ls, Tree} ==> r.namespace != "")
    && (op == Search ==> r.query != "") && (op == Put ==> Trim(r.title) != "")
    && (op == Put ==> Trim(r.body) != "" || r.allowEmpty) && (op == Append ==> Trim(r.body) != "")
    && (op == Revert ==> r.revision >= 1)
  }

  lemma UsedIsOwn(r: Request)
    requires !r.operation.Other?
    ensures r == Used(r) <==> NothingForeign(r)
  {
  }

  lemma NoneMissing(r: Request)
    requires !r.operation.Other?
    ensures MissingField(r).None? <==> NothingMissing(r)
  {
  }

  /** A request is accepted exactly when its operation is known, it has no field of another one and all it needs, only
      a removal carries an approval, and its values are sound. */
  lemma AcceptedExactly(r: Request)
    ensures Accepted(r) <==>
      && !r.operation.Other? && NothingForeign(r) && NothingMissing(r) && (r.approval != "" ==> r.operation == Rm)
      && ValuesAreSound(r)
  {
    FaultlessIsSound(r);
    if !r.operation.Other? {
      UsedIsOwn(r);
      NoneMissing(r);
    }
  }

  function Opt(flag: string, value: string): seq<string> {
    if value == "" then [] else [flag, value]
  }

  function OptNumber(flag: string, value: int): seq<string> {
    if value <= 0 then [] else [flag, Digits(value)]
  }

  function If(flag: string, on: bool): seq<string> {
    if on then [flag] else []
  }

  lemma WrittenIsSpelledOut(args: seq<string>, r: Request)
    requires r.format in {"", "markdown", "html"}
    ensures Written(args, r) == args + Opt("--note", r.note) + If("--md", r.format != "html")
  {
  }

  lemma ListingIsSpelledOut(r: Request)
    requires r.operation in {Ls, Tree, Search, Get}
    ensures r.operation == Ls ==>
      Argv(r) == ["ls", r.namespace] + Opt("--prefix", r.prefix) + Opt("--tag", r.tag) + OptNumber("--limit", r.limit)
    ensures r.operation == Tree ==> Argv(r) == ["tree", r.namespace] + OptNumber("--depth", r.depth)
    ensures r.operation == Search ==>
      Argv(r) == ["search", r.query] + Opt("--ns", r.namespace) + OptNumber("--limit", r.limit)
    ensures r.operation == Get ==> Argv(r) == ["get", r.page, "--json"] + OptNumber("--rev", r.revision)
  {
  }

  lemma PageIsSpelledOut(r: Request)
    requires r.operation in {Map, Url, Revs, Restore, Rm, Revert}
    ensures r.operation == Revert ==>
      Argv(r) == ["revert", r.page] + OptNumber("--rev", r.revision) + Opt("--note", r.note)
    ensures r.operation != Revert ==>
      Argv(r) == if r.operation == Map then ["map"] else if r.operation == Url then ["url", r.page]
                 else if r.operation == Revs then ["revs", r.page]
                 else if r.operation == Restore then ["restore", r.page]
                 else ["rm", r.page]
  {
  }

  /** The argv of a written page, spelled out: Markdown unless it is said to be HTML. */
  lemma AppendIsSpelledOut(r: Request)
    requires r.operation == Append && r.format in {"", "markdown", "html"}
    ensures Argv(r) ==
      ["append", r.page, "--body", r.body] + Opt("--note", r.note) + If("--md", r.format != "html") + ["--json"]
  {
    WrittenIsSpelledOut(["append", r.page, "--body", r.body], r);
  }

  lemma PutIsSpelledOut(r: Request)
    requires r.operation == Put && r.format in {"", "markdown", "html"}
    ensures Argv(r) ==
      ["put", r.page, "--title", r.title, "--body", r.body] + Opt("--tags", Joined(r.tags))
      + Opt("--note", r.note) + If("--md", r.format != "html") + If("--allow-empty", r.allowEmpty) + ["--json"]
  {
    var start := ["put", r.page, "--title", r.title, "--body", r.body];
    assert PutStart(r) == start;
    assert AppendString(start, TagsFlag, Joined(r.tags)) == start + Opt("--tags", Joined(r.tags));
    WrittenIsSpelledOut(start + Opt("--tags", Joined(r.tags)), r);
  }

  // ---------------------------------------------------------------- the decoder

  /** The value after a flag at position i, and where to go on. */
  function ReadString(args: seq<string>, i: nat, flag: Flag): (string, nat) {
    if i + 1 < |args| && args[i] == Word(flag) then (args[i + 1], i + 2) else ("", i)
  }

  function ReadInt(args: seq<string>, i: nat, flag: Flag): (nat, nat) {
    if i + 1 < |args| && args[i] == Word(flag) then (Number(args[i + 1]), i + 2) else (0, i)
  }

  function ReadSwitch(args: seq<string>, i: nat, flag: Flag): (bool, nat) {
    if i < |args| && args[i] == Word(flag) then (true, i + 1) else (false, i)
  }

  function Blank(operation: Operation): Request {
    Request([], operation, "", "", "", "", "", [], "", "", "", "", 0, 0, 0, false, "")
  }

  function DecodeListing(r: Request, args: seq<string>): Request
    requires |args| >= 2
  {
    var (prefix, i) := ReadString(args, 2, PrefixFlag);
    var (tag, j) := ReadString(args, i, TagFlag);
    r.(namespace := args[1], prefix := prefix, tag := tag, limit := ReadInt(args, j, LimitFlag).0)
  }

  function DecodeWritten(r: Request, args: seq<string>, i: nat): (Request, nat) {
    var (note, j) := ReadString(args, i, NoteFlag);
    var (markdown, k) := ReadSwitch(args, j, MdFlag);
    (r.(note := note, format := if markdown then "markdown" else "html"), k)
  }

  function DecodePut(r: Request, args: seq<string>): Request
    requires |args| >= 6
  {
    var (tags, i) := ReadString(args, 6, TagsFlag);
    var (written, j) := DecodeWritten(r, args, i);
    written.(page := args[1], title := args[3], body := args[5], tags := if tags == "" then [] else Split(tags),
             allowEmpty := ReadSwitch(args, j, AllowEmptyFlag).0)
  }

  /** The arguments an operation always has. */
  function Fixed(operation: Operation): nat {
    match operation
    case Map | Other(_) => 1
    case Put => 6
    case Append => 4
    case _ => 2
  }

  function Decode(args: seq<string>): Option<Request> {
    if args == [] then None else DecodeAs(Parse(args[0]), args)
  }

  function DecodeAs(operation: Operation, args: seq<string>): Option<Request> {
    if |args| < Fixed(operation) then None
    else
      var r := Blank(operation);
      match operation
      case Map => Some(r)
      case Other(_) => None
      case Ls => Some(DecodeListing(r, args))
      case Tree => Some(r.(namespace := args[1], depth := ReadInt(args, 2, DepthFlag).0))
      case Search =>
        var (namespace, i) := ReadString(args, 2, NsFlag);
        Some(r.(query := args[1], namespace := namespace, limit := ReadInt(args, i, LimitFlag).0))
      case Get => Some(r.(page := args[1], revision := ReadInt(args, 3, RevFlag).0))
      case Put => Some(DecodePut(r, args))
      case Append => Some(DecodeWritten(r, args, 4).0.(page := args[1], body := args[3]))
      case Revert =>
        var (revision, i) := ReadInt(args, 2, RevFlag);
        Some(r.(page := args[1], revision := revision, note := ReadString(args, i, NoteFlag).0))
      case Url | Revs | Restore | Rm => Some(r.(page := args[1]))
  }

  /** What an argv must carry: everything but the skill names and the approval, with an unnamed format of a
      written page counted as markdown. */
  function Meaning(r: Request): Request {
    r.(skillNames := [], approval := "",
       format := if r.operation.Put? || r.operation.Append? then Format(r) else r.format)
  }

  // ---------------------------------------------------------------- nothing is lost

  predicate Starts(whole: seq<string>, part: seq<string>) {
    |part| <= |whole| && forall i :: 0 <= i < |part| ==> whole[i] == part[i]
  }

  /** Nothing at position i, or another flag than this one. */
  predicate NotFlag(whole: seq<string>, i: nat, flag: Flag) {
    i < |whole| ==> exists other: Flag :: other != flag && whole[i] == Word(other)
  }

  /** An optional string is read back, however the argv goes on after it. */
  lemma StringReadsBack(base: seq<string>, flag: Flag, value: string, whole: seq<string>)
    requires Starts(whole, AppendString(base, flag, value)) && (value == "" ==> NotFlag(whole, |base|, flag))
    ensures ReadString(whole, |base|, flag) == (value, |AppendString(base, flag, value)|)
  {
    if value == "" && |base| < |whole| {
      var other: Flag :| other != flag && whole[|base|] == Word(other);
      FlagsDiffer(flag, other);
    } else if value != "" {
      assert AppendString(base, flag, value)[|base|] == Word(flag)
        && AppendString(base, flag, value)[|base| + 1] == value;
    }
  }

  lemma IntReadsBack(base: seq<string>, flag: Flag, value: nat, whole: seq<string>)
    requires Starts(whole, AppendInt(base, flag, value)) && (value == 0 ==> NotFlag(whole, |base|, flag))
    ensures ReadInt(whole, |base|, flag) == (value, |AppendInt(base, flag, value)|)
  {
    if value == 0 && |base| < |whole| {
      var other: Flag :| other != flag && whole[|base|] == Word(other);
      FlagsDiffer(flag, other);
    } else if value != 0 {
      NumberDigits(value);
      assert AppendInt(base, flag, value)[|base|] == Word(flag)
        && AppendInt(base, flag, value)[|base| + 1] == Digits(value);
    }
  }

  lemma SwitchReadsBack(base: seq<string>, flag: Flag, on: bool, whole: seq<string>)
    requires Starts(whole, AppendSwitch(base, flag, on)) && (!on ==> NotFlag(whole, |base|, flag))
    ensures ReadSwitch(whole, |base|, flag) == (on, |AppendSwitch(base, flag, on)|)
  {
    if !on && |base| < |whole| {
      var other: Flag :| other != flag && whole[|base|] == Word(other);
      FlagsDiffer(flag, other);
    } else if on {
      assert AppendSwitch(base, flag, on)[|base|] == Word(flag);
    }
  }

  /** Where an optional argument is, or would be, there is no other flag unless one follows. */
  lemma StringHides(base: seq<string>, flag: Flag, value: string, whole: seq<string>, other: Flag)
    requires Starts(whole, AppendString(base, flag, value)) && other != flag
      && (value == "" ==> NotFlag(whole, |base|, other))
    ensures NotFlag(whole, |base|, other)
  {
    assert value != "" ==> AppendString(base, flag, value)[|base|] == Word(flag);
  }

  lemma SwitchHides(base: seq<string>, flag: Flag, on: bool, whole: seq<string>, other: Flag)
    requires Starts(whole, AppendSwitch(base, flag, on)) && other != flag && (!on ==> NotFlag(whole, |base|, other))
    ensures NotFlag(whole, |base|, other)
  {
    assert on ==> AppendSwitch(base, flag, on)[|base|] == Word(flag);
  }

  lemma LastIntHides(base: seq<string>, flag: Flag, value: nat, other: Flag)
    requires other != flag
    ensures NotFlag(AppendInt(base, flag, value), |base|, other)
  {
    assert value != 0 ==> AppendInt(base, flag, value)[|base|] == Word(flag);
  }

  lemma TagsSurvive(tags: seq<string>)
    requires forall tag :: tag in tags ==> ValidTag(tag)
    ensures (if Joined(tags) == "" then [] else Split(Joined(tags))) == tags
  {
    if tags != [] {
      assert tags[0] in tags;
      SplitJoin(tags);
    }
  }

  lemma ListingReadsBack(a: seq<string>, prefix: string, tag: string, limit: nat, r: Request)
    requires |a| == 2
    ensures DecodeListing(r,
                          AppendInt(AppendString(AppendString(a, PrefixFlag, prefix), TagFlag, tag), LimitFlag, limit))
      == r.(namespace := a[1], prefix := prefix, tag := tag, limit := limit)
  {
    var b := AppendString(a, PrefixFlag, prefix);
    var c := AppendString(b, TagFlag, tag);
    var whole := AppendInt(c, LimitFlag, limit);
    assert Starts(whole, c) && Starts(whole, b);
    LastIntHides(c, LimitFlag, limit, TagFlag);
    LastIntHides(c, LimitFlag, limit, PrefixFlag);
    StringHides(b, TagFlag, tag, whole, PrefixFlag);
    StringReadsBack(a, PrefixFlag, prefix, whole);
    StringReadsBack(b, TagFlag, tag, whole);
    IntReadsBack(c, LimitFlag, limit, whole);
  }

  lemma ListingSurvives(r: Request)
    requires r.operation.Ls? && r == Used(r) && r.limit >= 0
    ensures DecodeAs(r.operation, Argv(r)) == Some(Meaning(r))
  {
    ListingReadsBack([Name(r.operation), r.namespace], r.prefix, r.tag, r.limit, Blank(r.operation));
  }

  lemma TreeSurvives(r: Request)
    requires r.operation.Tree? && r == Used(r) && r.depth >= 0
    ensures DecodeAs(r.operation, Argv(r)) == Some(Meaning(r))
  {
    var a := [Name(r.operation), r.namespace];
    LastIntHides(a, DepthFlag, r.depth, RevFlag);
    IntReadsBack(a, DepthFlag, r.depth, Argv(r));
    assert Argv(r)[1] == a[1];
  }

  lemma GetSurvives(r: Request)
    requires r.operation.Get? && r == Used(r) && r.revision >= 0
    ensures DecodeAs(r.operation, Argv(r)) == Some(Meaning(r))
  {
    var a := [Name(r.operation), r.page, Word(JsonFlag)];
    IntReadsBack(a, RevFlag, r.revision, Argv(r));
    assert Argv(r)[1] == a[1];
  }

  lemma SearchSurvives(r: Request)
    requires r.operation.Search? && r == Used(r) && r.limit >= 0
    ensures DecodeAs(r.operation, Argv(r)) == Some(Meaning(r))
  {
    var a := [Name(r.operation), r.query];
    var b := AppendString(a, NsFlag, r.namespace);
    LastIntHides(b, LimitFlag, r.limit, NsFlag);
    assert Starts(Argv(r), b);
    StringReadsBack(a, NsFlag, r.namespace, Argv(r));
    IntReadsBack(b, LimitFlag, r.limit, Argv(r));
    assert Argv(r)[1] == a[1];
  }

  lemma RevertSurvives(r: Request)
    requires r.operation.Revert? && r == Used(r) && r.revision >= 1
    ensures DecodeAs(r.operation, Argv(r)) == Some(Meaning(r))
  {
    var a := [Name(r.operation), r.page];
    var b := AppendInt(a, RevFlag, r.revision);
    IntReadsBack(a, RevFlag, r.revision, Argv(r));
    StringReadsBack(b, NoteFlag, r.note, Argv(r));
  }

  /** The note and the format are read back when what follows is no flag of theirs. */
  lemma WrittenReadsBack(base: seq<string>, r: Request, whole: seq<string>, blank: Request)
    requires Starts(whole, Written(base, r)) && r.format in {"", "markdown", "html"}
    requires NotFlag(whole, |Written(base, r)|, MdFlag) && NotFlag(whole, |Written(base, r)|, NoteFlag)
    ensures DecodeWritten(blank, whole, |base|) == (blank.(note := r.note, format := Format(r)), |Written(base, r)|)
  {
    var noted := AppendString(base, NoteFlag, r.note);
    var markdown := Format(r) == "markdown";
    assert markdown ==> Written(base, r)[|noted|] == Word(MdFlag);
    assert Starts(whole, noted);
    StringReadsBack(base, NoteFlag, r.note, whole);
    SwitchReadsBack(noted, MdFlag, markdown, whole);
  }

  lemma AppendSurvives(r: Request)
    requires r.operation.Append? && r == Used(r) && r.format in {"", "markdown", "html"}
    ensures DecodeAs(r.operation, Argv(r)) == Some(Meaning(r))
  {
    var a := [Name(r.operation), r.page, Word(BodyFlag), r.body];
    var whole := Argv(r);
    assert whole[|Written(a, r)|] == Word(JsonFlag);
    WrittenReadsBack(a, r, whole, Blank(r.operation));
    assert whole[1] == a[1] && whole[3] == a[3];
  }

  lemma TailStarts(b: seq<string>, r: Request)
    ensures Starts(PutTail(b, r), b) && Starts(PutTail(b, r), Written(b, r))
    ensures Starts(PutTail(b, r), AppendString(b, NoteFlag, r.note))
    ensures Starts(PutTail(b, r), AppendSwitch(Written(b, r), AllowEmptyFlag, r.allowEmpty))
  {
  }

  lemma TailHides(b: seq<string>, r: Request)
    ensures NotFlag(PutTail(b, r), |b|, TagsFlag)
    ensures NotFlag(PutTail(b, r), |Written(b, r)|, MdFlag) && NotFlag(PutTail(b, r), |Written(b, r)|, NoteFlag)
    ensures !r.allowEmpty ==> NotFlag(PutTail(b, r), |Written(b, r)|, AllowEmptyFlag)
  {
    var whole := PutTail(b, r);
    var c := Written(b, r);
    TailStarts(b, r);
    assert whole[|whole| - 1] == Word(JsonFlag);
    SwitchHides(c, AllowEmptyFlag, r.allowEmpty, whole, MdFlag);
    SwitchHides(c, AllowEmptyFlag, r.allowEmpty, whole, NoteFlag);
    SwitchHides(c, AllowEmptyFlag, r.allowEmpty, whole, TagsFlag);
    SwitchHides(AppendString(b, NoteFlag, r.note), MdFlag, Format(r) == "markdown", whole, TagsFlag);
    StringHides(b, NoteFlag, r.note, whole, TagsFlag);
  }

  lemma PutReadsBack(a: seq<string>, r: Request, blank: Request)
    requires |a| == 6 && r.format in {"", "markdown", "html"} && forall tag :: tag in r.tags ==> ValidTag(tag)
    ensures var whole := PutTail(AppendString(a, TagsFlag, Joined(r.tags)), r);
      |whole| >= 6
      && DecodePut(blank, whole) == blank.(page := a[1], title := a[3], body := a[5], tags := r.tags, note := r.note,
                                           format := Format(r), allowEmpty := r.allowEmpty)
  {
    var b := AppendString(a, TagsFlag, Joined(r.tags));
    var whole := PutTail(b, r);
    TagsSurvive(r.tags);
    TailStarts(b, r);
    TailHides(b, r);
    StringReadsBack(a, TagsFlag, Joined(r.tags), whole);
    WrittenReadsBack(b, r, whole, blank);
    SwitchReadsBack(Written(b, r), AllowEmptyFlag, r.allowEmpty, whole);
  }

  lemma PutSurvives(r: Request)
    requires r.operation.Put? && r == Used(r) && r.format in {"", "markdown", "html"}
      && forall tag :: tag in r.tags ==> ValidTag(tag)
    ensures DecodeAs(r.operation, Argv(r)) == Some(Meaning(r))
  {
    PutReadsBack(PutStart(r), r, Blank(r.operation));
    TailStarts(AppendString(PutStart(r), TagsFlag, Joined(r.tags)), r);
  }

  lemma NameFirst(r: Request)
    ensures Argv(r) != [] && Argv(r)[0] == Name(r.operation)
  {
    TailStarts(AppendString(PutStart(r), TagsFlag, Joined(r.tags)), r);
  }

  /** Decoding the argv of any accepted request gives back everything it meant. */
  lemma ArgvIsLossless(r: Request)
    requires Accepted(r)
    ensures Decode(Argv(r)) == Some(Meaning(r))
  {
    NamesDiffer(r.operation);
    NameFirst(r);
    match r.operation
    case Ls => ListingSurvives(r);
    case Tree => TreeSurvives(r);
    case Search => SearchSurvives(r);
    case Get => GetSurvives(r);
    case Put => PutSurvives(r);
    case Append => AppendSurvives(r);
    case Revert => RevertSurvives(r);
    case _ =>
  }

  /** Two accepted requests with the same argv mean the same. */
  lemma SameArgvSameMeaning(r: Request, s: Request)
    requires Accepted(r) && Accepted(s) && Argv(r) == Argv(s)
    ensures Meaning(r) == Meaning(s)
  {
    ArgvIsLossless(r);
    ArgvIsLossless(s);
  }

  // ---------------------------------------------------------------- the builder

  /** Accepts exactly the well-formed requests and grows their argv argument by argument. */
  method Build(r: Request) returns (result: Result<Invocation, Code>)
    ensures result.Ok? <==> Accepted(r)
    ensures result.Err? ==>
      || (result.error == Unsupported && ReviewedOperation(r.operation).None?)
      || (result.error == ApprovalNotAllowed && r.approval != "" && !r.operation.Rm?)
      || ValueFault(r) == Some(result.error)
      || (result.error.Required? && MissingField(r) == Some(result.error.field))
      || (result.error == FieldNotAllowed && r != Used(r))
    ensures result.Ok? ==> result.value == Invocation(ReviewedOperation(r.operation).value, Argv(r), r.approval)
    ensures result.Ok? ==>
      && (result.value.operationId == "delete" <==> r.operation == Rm)
      && (result.value.operationId == "write" <==> r.operation in {Put, Append, Restore, Revert})
      && (result.value.operationId == "read" <==> r.operation in {Map, Ls, Tree, Get, Search, Revs, Url})
      && (result.value.approval != "" ==> r.operation == Rm) && ValuesAreSound(r)
  {
    var operationId := ReviewedOperation(r.operation);
    if operationId.None? {
      return Err(Unsupported);
    }
    if r.approval != "" && !r.operation.Rm? {
      return Err(ApprovalNotAllowed);
    }
    var fault := ValueFault(r);
    if fault.Some? {
      return Err(fault.value);
    }
    var missing := MissingField(r);
    if missing.Some? {
      return Err(Required(missing.value));
    }
    if r != Used(r) {
      return Err(FieldNotAllowed);
    }
    var args := Arguments(r);
    FaultlessIsSound(r);
    return Ok(Invocation(operationId.value, args, r.approval));
  }

  method Arguments(r: Request) returns (args: seq<string>)
    requires (r.operation.Revert? ==> r.revision > 0) && forall tag :: tag in r.tags ==> ValidTag(tag)
    ensures args == Argv(r)
  {
    args := [Name(r.operation)];
    match r.operation {
      case Map =>
      case Ls =>
        args := args + [r.namespace];
        args := AppendString(args, PrefixFlag, r.prefix);
        args := AppendString(args, TagFlag, r.tag);
        args := AppendInt(args, LimitFlag, r.limit);
      case Tree =>
        args := args + [r.namespace];
        args := AppendInt(args, DepthFlag, r.depth);
      case Search =>
        args := args + [r.query];
        args := AppendString(args, NsFlag, r.namespace);
        args := AppendInt(args, LimitFlag, r.limit);
      case Get =>
        args := args + [r.page, Word(JsonFlag)];
        args := AppendInt(args, RevFlag, r.revision);
      case Put =>
        args := PutArguments(r);
      case Append =>
        args := args + [r.page, Word(BodyFlag), r.body];
        args := AppendWritten(args, r);
        args := args + [Word(JsonFlag)];
      case Revert =>
        args := args + [r.page, Word(RevFlag), Digits(r.revision)];
        args := AppendString(args, NoteFlag, r.note);
      case _ => args := args + [r.page];
    }
  }

  method PutArguments(r: Request) returns (args: seq<string>)
    requires forall tag :: tag in r.tags ==> ValidTag(tag)
    ensures args == PutTail(AppendString(PutStart(r), TagsFlag, Joined(r.tags)), r)
  {
    args := [Name(r.operation), r.page, Word(TitleFlag), r.title, Word(BodyFlag), r.body];
    TagsSurvive(r.tags);
    if r.tags != [] {
      args := args + [Word(TagsFlag), Join(r.tags)];
    }
    args := AppendWritten(args, r);
    if r.allowEmpty {
      args := args + [Word(AllowEmptyFlag)];
    }
    args := args + [Word(JsonFlag)];
  }

  method AppendWritten(args: seq<string>, r: Request) returns (more: seq<string>)
    ensures more == Written(args, r)
  {
    more := AppendString(args, NoteFlag, r.note);
    more := AppendSwitch(more, MdFlag, Format(r) == "markdown");
  }
}
