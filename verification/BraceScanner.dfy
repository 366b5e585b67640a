/** `_try_parse_json` of agents/coordinator.py: a string-aware brace scanner that tries every opening
    brace, against a printer of JSON objects (sections 2 to 7 of RFC 8259). The JSON parser is an
    oracle; besides decode errors it may raise others (recursion, huge integers). */
module BraceScanner {
  import opened Basics
  import opened Evidence

  datatype Loaded = Decoded(value: Json) | DecodeError | OtherError

  datatype Config = Config(loads: string -> Loaded, tools: set<string>)

  // ---- the scanner ----

  datatype Scan = Scan(depth: int, inString: bool, escape: bool)

  const START := Scan(0, false, false)

  function Next(s: Scan, c: char): Scan {
    if s.escape then s.(escape := false)
    else if c == '\\' && s.inString then s.(escape := true)
    else if c == '"' then s.(inString := !s.inString)
    else if s.inString then s
    else if c == '{' then s.(depth := s.depth + 1)
    else if c == '}' then s.(depth := s.depth - 1)
    else s
  }

  function After(s: Scan, text: string): Scan {
    if text == "" then s else Next(After(s, text[..|text| - 1]), Last(text))
  }

  /** The text from `i` through `j` brings the depth back to zero for the first time. */
  ghost predicate Block(content: string, i: nat, j: nat) {
    && i < j < |content| && content[i] == '{'
    && After(START, content[i..j + 1]).depth == 0
    && forall k :: i < k <= j ==> After(START, content[i..k]).depth > 0
  }

  // ---- the result ----

  predicate Hashable(v: Json) {
    !v.List? && !v.Object?
  }

  /** The object in the block is kept as a candidate. */
  predicate Kept(cfg: Config, text: string) {
    var l := cfg.loads(text);
    l.Decoded? && l.value.Object?
    && var name := Get(l.value.members, "name", Null);
       Hashable(name) && !(name.String? && name.text in cfg.tools)
  }

  /** The attempt raises past the handler: another error of the parser, or a name that cannot be
      looked up in a set. */
  predicate Breaks(cfg: Config, text: string) {
    var l := cfg.loads(text);
    l.OtherError? || (l.Decoded? && l.value.Object? && !Hashable(Get(l.value.members, "name", Null)))
  }

  ghost predicate CandidateAt(cfg: Config, content: string, i: nat, members: Fields) {
    exists j: nat :: Block(content, i, j) && Kept(cfg, content[i..j + 1])
                     && cfg.loads(content[i..j + 1]) == Decoded(Object(members))
  }

  ghost predicate BreaksAt(cfg: Config, content: string, i: nat) {
    exists j: nat :: Block(content, i, j) && Breaks(cfg, content[i..j + 1])
  }

  datatype Result = Empty | Picked(members: Fields) | Raw(text: string) | Raised

  /** The first candidate from the left among those with the most keys. */
  ghost predicate FirstLargest(cfg: Config, content: string, upTo: nat, i: nat, members: Fields) {
    && i < upTo && CandidateAt(cfg, content, i, members)
    && forall i': nat, m :: i' < upTo && CandidateAt(cfg, content, i', m) ==>
         |m| <= |members| && (i' < i ==> |m| < |members|)
  }

  ghost predicate IsResult(cfg: Config, content: string, r: Result) {
    match r
    case Empty => content == ""
    case Raised => exists i: nat :: BreaksAt(cfg, content, i)
    case Picked(members) =>
      (forall i: nat :: !BreaksAt(cfg, content, i))
      && exists i: nat :: FirstLargest(cfg, content, |content|, i, members)
    case Raw(text) =>
      && (forall i: nat :: !BreaksAt(cfg, content, i))
      && content != "" && (forall i: nat, m :: !CandidateAt(cfg, content, i, m))
      && text == content[..if |content| < 500 then |content| else 500]
  }

  /** The inner loop: the end of the block that starts at `i`, if it ends. */
  method FindBlock(content: string, i: nat) returns (end: Option<nat>)
    requires i < |content| && content[i] == '{'
    ensures end.Some? ==> Block(content, i, end.value)
    ensures end.None? ==> forall j: nat :: !Block(content, i, j)
  {
    var depth, inString, escape := 0, false, false;
    var j := i;
    while j < |content|
      invariant i <= j <= |content|
      invariant After(START, content[i..j]) == Scan(depth, inString, escape)
      invariant forall k :: i < k <= j ==> After(START, content[i..k]).depth > 0
    {
      var c := content[j];
      assert content[i..j + 1][..j - i] == content[i..j];
      if escape {
        escape := false;
      } else if c == '\\' && inString {
        escape := true;
      } else if c == '"' {
        inString := !inString;
      } else if !inString {
        if c == '{' {
          depth := depth + 1;
        } else if c == '}' {
          depth := depth - 1;
          if depth == 0 {
            return Some(j);
          }
        }
      }
      j := j + 1;
    }
    end := None;
  }

  lemma NoBlockWithoutBrace(content: string, i: nat)
    requires i < |content| && content[i] != '{'
    ensures forall j: nat :: !Block(content, i, j)
  {
  }

  method TryParseJson(cfg: Config, content: string) returns (r: Result)
    ensures IsResult(cfg, content, r)
  {
    if content == "" {
      return Empty;
    }
    var best: Option<Fields> := None;
    ghost var start: nat := 0;
    var i := 0;
    while i < |content|
      invariant 0 <= i <= |content|
      invariant forall i': nat :: i' < i ==> !BreaksAt(cfg, content, i')
      invariant best.None? ==> forall i': nat, m :: i' < i ==> !CandidateAt(cfg, content, i', m)
      invariant best.Some? ==> FirstLargest(cfg, content, i, start, best.value)
    {
      if content[i] != '{' {
        NoBlockWithoutBrace(content, i);
        i := i + 1;
        continue;
      }
      var end := FindBlock(content, i);
      if end.Some? {
        var text := content[i..end.value + 1];
        OnlyBlock(cfg, content, i, end.value);
        if Breaks(cfg, text) {
          return Raised;
        }
        if Kept(cfg, text) {
          var members := cfg.loads(text).value.members;
          if best.None? || |members| > |best.value| {
            best := Some(members);
            start := i;
          }
        }
      }
      i := i + 1;
    }
    WholeText(cfg, content, best, start);
    r := if best.Some? then Picked(best.value) else Raw(content[..if |content| < 500 then |content| else 500]);
  }

  lemma OnlyBlock(cfg: Config, content: string, i: nat, j: nat)
    requires Block(content, i, j)
    ensures BreaksAt(cfg, content, i) <==> Breaks(cfg, content[i..j + 1])
    ensures forall m :: CandidateAt(cfg, content, i, m) <==>
      Kept(cfg, content[i..j + 1]) && cfg.loads(content[i..j + 1]) == Decoded(Object(m))
  {
  }

  /** Once every position has been tried, the best candidate is the result. */
  lemma WholeText(cfg: Config, content: string, best: Option<Fields>, start: nat)
    requires content != "" && forall i: nat :: i < |content| ==> !BreaksAt(cfg, content, i)
    requires best.None? ==> forall i: nat, m :: i < |content| ==> !CandidateAt(cfg, content, i, m)
    requires best.Some? ==> FirstLargest(cfg, content, |content|, start, best.value)
    ensures IsResult(cfg, content,
      if best.Some? then Picked(best.value) else Raw(content[..if |content| < 500 then |content| else 500]))
  {
    NothingBeyond(cfg, content);
  }

  lemma NothingBeyond(cfg: Config, content: string)
    ensures forall i: nat :: i >= |content| ==> !BreaksAt(cfg, content, i)
    ensures forall i: nat, m :: i >= |content| ==> !CandidateAt(cfg, content, i, m)
  {
  }

  // ---- what the result tells ----

  ghost predicate ToolCall(cfg: Config, m: Fields) {
    "name" in m && m["name"].String? && m["name"].text in cfg.tools
  }

  ghost predicate Unnameable(m: Fields) {
    "name" in m && (m["name"].List? || m["name"].Object?)
  }

  /** The parser reads the block from `i` through `j` as the object. */
  ghost predicate ObjectAt(cfg: Config, content: string, i: nat, j: nat, m: Fields) {
    Block(content, i, j) && cfg.loads(content[i..j + 1]) == Decoded(Object(m))
  }

  /** The parser gives up on the block, or the object has a list or an object for its name. */
  ghost predicate Crashes(cfg: Config, content: string, i: nat, j: nat) {
    Block(content, i, j) && (cfg.loads(content[i..j + 1]).OtherError? || exists m :: ObjectAt(cfg, content, i, j, m) && Unnameable(m))
  }

  /** The block holds an object that is no tool call. */
  ghost predicate PlainObjectAt(cfg: Config, content: string, i: nat, j: nat, m: Fields) {
    ObjectAt(cfg, content, i, j, m) && !ToolCall(cfg, m)
  }

  /** The block has the most keys among all those, and more than any to its left. */
  ghost predicate FirstOfLargest(cfg: Config, content: string, i: nat, j: nat, members: Fields) {
    && PlainObjectAt(cfg, content, i, j, members)
    && forall i': nat, j': nat, m :: PlainObjectAt(cfg, content, i', j', m) ==>
         |m| <= |members| && (i' < i ==> |m| < |members|)
  }

  lemma BreaksIsCrash(cfg: Config, content: string, i: nat)
    ensures BreaksAt(cfg, content, i) <==> exists j: nat :: Crashes(cfg, content, i, j)
  {
    if j: nat :| Block(content, i, j) && Breaks(cfg, content[i..j + 1]) {
      var l := cfg.loads(content[i..j + 1]);
      if l.Decoded? { assert ObjectAt(cfg, content, i, j, l.value.members); }
      assert Crashes(cfg, content, i, j);
    }
    if j: nat :| Crashes(cfg, content, i, j) { assert Breaks(cfg, content[i..j + 1]); }
  }

  lemma CandidateIsPlain(cfg: Config, content: string, i: nat, m: Fields)
    requires !BreaksAt(cfg, content, i)
    ensures CandidateAt(cfg, content, i, m) <==> exists j: nat :: PlainObjectAt(cfg, content, i, j, m)
  {
    if j: nat :| Block(content, i, j) && Kept(cfg, content[i..j + 1]) && cfg.loads(content[i..j + 1]) == Decoded(Object(m)) {
      assert PlainObjectAt(cfg, content, i, j, m);
    }
    if j: nat :| PlainObjectAt(cfg, content, i, j, m) {
      assert !Breaks(cfg, content[i..j + 1]);
      assert Kept(cfg, content[i..j + 1]);
    }
  }

  /** The call raises exactly if some block makes the parser or the name check fail. What it picks is
      no tool call and is the first among the objects, of all blocks, that are none and have the most
      keys; where it gives back the text, every object in it is a tool call. */
  lemma ResultTold(cfg: Config, content: string, r: Result)
    requires IsResult(cfg, content, r)
    ensures r.Raised? <==> exists i: nat, j: nat :: Crashes(cfg, content, i, j)
    ensures r.Picked? ==> exists i: nat, j: nat :: FirstOfLargest(cfg, content, i, j, r.members)
    ensures r.Raw? || r.Empty? ==> forall i: nat, j: nat, m :: ObjectAt(cfg, content, i, j, m) ==> ToolCall(cfg, m)
  {
    forall i: nat ensures BreaksAt(cfg, content, i) <==> exists j: nat :: Crashes(cfg, content, i, j) {
      BreaksIsCrash(cfg, content, i);
    }
    if r.Raised? {
      var i: nat :| BreaksAt(cfg, content, i);
      var j: nat :| Crashes(cfg, content, i, j);
    } else {
      forall i: nat, j: nat ensures !Crashes(cfg, content, i, j) { assert !BreaksAt(cfg, content, i); }
      forall i: nat, m ensures CandidateAt(cfg, content, i, m) <==> exists j: nat :: PlainObjectAt(cfg, content, i, j, m) {
        CandidateIsPlain(cfg, content, i, m);
      }
      PickedTold(cfg, content, r);
      if r.Raw? {
        forall i: nat, j: nat, m | ObjectAt(cfg, content, i, j, m) ensures ToolCall(cfg, m) {
          assert !CandidateAt(cfg, content, i, m);
          assert !PlainObjectAt(cfg, content, i, j, m);
        }
      }
    }
  }

  lemma PickedTold(cfg: Config, content: string, r: Result)
    requires IsResult(cfg, content, r)
    requires forall i: nat, m :: CandidateAt(cfg, content, i, m) <==> exists j: nat :: PlainObjectAt(cfg, content, i, j, m)
    ensures r.Picked? ==> exists i: nat, j: nat :: FirstOfLargest(cfg, content, i, j, r.members)
  {
    if r.Picked? {
      var i: nat :| FirstLargest(cfg, content, |content|, i, r.members);
      var j: nat :| PlainObjectAt(cfg, content, i, j, r.members);
      forall i': nat, j': nat, m | PlainObjectAt(cfg, content, i', j', m)
        ensures |m| <= |r.members| && (i' < i ==> |m| < |r.members|)
      {
        assert CandidateAt(cfg, content, i', m);
      }
      assert FirstOfLargest(cfg, content, i, j, r.members);
    }
  }

  // ---- JSON text ----

  predicate Space(s: string) {
    forall i :: 0 <= i < |s| ==> s[i] in " \t\n\r"
  }

  /** A piece of a string: a plain character, a two-character escape, or a Unicode escape. */
  datatype Piece = Plain(c: char) | Escape(c: char) | Unicode(digits: string)

  predicate PieceOk(p: Piece) {
    match p
    case Plain(c) => c != '"' && c != '\\' && c >= ' '
    case Escape(c) => c in "\"\\/bfnrt"
    case Unicode(d) => |d| == 4 && forall i :: 0 <= i < 4 ==> '0' <= d[i] <= '9' || 'a' <= d[i] <= 'f' || 'A' <= d[i] <= 'F'
  }

  /** A value with the white space of its text; a scalar is a number or a literal name. */
  datatype Value =
    | Scalar(text: string)
    | Text(pieces: seq<Piece>)
    | Array(inner: string, items: seq<Item>)
    | Members(inner: string, members: seq<Member>)
  datatype Item = Item(before: string, value: Value, after: string)
  datatype Member = Member(before: string, name: seq<Piece>, afterName: string, item: Item)

  predicate TextOk(pieces: seq<Piece>) {
    forall i :: 0 <= i < |pieces| ==> PieceOk(pieces[i])
  }

  predicate ScalarOk(s: string) {
    s != "" && forall i :: 0 <= i < |s| ==>
      'a' <= s[i] <= 'z' || '0' <= s[i] <= '9' || s[i] == '-' || s[i] == '+' || s[i] == '.' || s[i] == 'E'
  }

  predicate ValueOk(v: Value) {
    match v
    case Scalar(s) => ScalarOk(s)
    case Text(pieces) => TextOk(pieces)
    case Array(inner, items) => Space(inner) && forall i :: 0 <= i < |items| ==> ItemOk(items[i])
    case Members(inner, members) => Space(inner) && forall i :: 0 <= i < |members| ==> MemberOk(members[i])
  }

  predicate ItemOk(i: Item) {
    Space(i.before) && ValueOk(i.value) && Space(i.after)
  }

  predicate MemberOk(m: Member) {
    Space(m.before) && TextOk(m.name) && Space(m.afterName) && ItemOk(m.item)
  }

  function PrintPiece(p: Piece): string {
    match p
    case Plain(c) => [c]
    case Escape(c) => ['\\', c]
    case Unicode(d) => ['\\', 'u'] + d
  }

  function PrintPieces(pieces: seq<Piece>): string {
    if pieces == [] then "" else PrintPieces(pieces[..|pieces| - 1]) + PrintPiece(Last(pieces))
  }

  function PrintText(pieces: seq<Piece>): string {
    "\"" + PrintPieces(pieces) + "\""
  }

  function Print(v: Value): string {
    match v
    case Scalar(s) => s
    case Text(pieces) => PrintText(pieces)
    case Array(inner, items) => "[" + (if items == [] then inner else PrintItems(items)) + "]"
    case Members(inner, members) => "{" + Inside(inner, members) + "}"
  }

  function Inside(inner: string, members: seq<Member>): string
    decreases members, 1
  {
    if members == [] then inner else PrintMembers(members)
  }

  function PrintItem(i: Item): string {
    i.before + Print(i.value) + i.after
  }

  function PrintMember(m: Member): string {
    m.before + PrintText(m.name) + m.afterName + ":" + PrintItem(m.item)
  }

  function PrintItems(items: seq<Item>): string
    requires items != []
  {
    if |items| == 1 then PrintItem(items[0]) else PrintItem(items[0]) + "," + PrintItems(items[1..])
  }

  function PrintMembers(members: seq<Member>): string
    requires members != []
    decreases members, 0
  {
    if |members| == 1 then PrintMember(members[0]) else PrintMember(members[0]) + "," + PrintMembers(members[1..])
  }

  // ---- scanning printed text ----

  /** Scanning `text` at depth `d` outside strings comes back to there, and never goes below. */
  ghost predicate Neutral(text: string) {
    forall d: int {:trigger StaysAbove(d, text)} :: After(Scan(d, false, false), text) == Scan(d, false, false) && StaysAbove(d, text)
  }

  ghost predicate StaysAbove(d: int, text: string) {
    forall k :: 0 <= k <= |text| ==> After(Scan(d, false, false), text[..k]).depth >= d
  }

  lemma {:induction false} AfterConcat(s: Scan, a: string, b: string)
    ensures After(s, a + b) == After(After(s, a), b)
  {
    if b == "" {
      assert a + b == a;
    } else {
      assert (a + b)[..|a + b| - 1] == a + b[..|b| - 1];
      AfterConcat(s, a, b[..|b| - 1]);
    }
  }

  lemma NeutralConcat(a: string, b: string)
    requires Neutral(a) && Neutral(b)
    ensures Neutral(a + b)
  {
    forall d: int ensures After(Scan(d, false, false), a + b) == Scan(d, false, false) && StaysAbove(d, a + b) {
      AfterConcat(Scan(d, false, false), a, b);
      assert StaysAbove(d, a) && StaysAbove(d, b);
      forall k | 0 <= k <= |a + b| ensures After(Scan(d, false, false), (a + b)[..k]).depth >= d {
        if k <= |a| {
          assert (a + b)[..k] == a[..k];
        } else {
          assert (a + b)[..k] == a + b[..k - |a|];
          AfterConcat(Scan(d, false, false), a, b[..k - |a|]);
        }
      }
    }
  }

  predicate Dull(c: char) {
    c != '"' && c != '{' && c != '}'
  }

  /** Text without quotes and braces is neutral. */
  lemma {:induction false} DullIsNeutral(text: string)
    requires forall i :: 0 <= i < |text| ==> Dull(text[i])
    ensures Neutral(text)
  {
    forall d: int, k | 0 <= k <= |text| ensures After(Scan(d, false, false), text[..k]) == Scan(d, false, false) {
      DullScan(d, text[..k]);
    }
    assert text[..|text|] == text;
  }

  lemma {:induction false} DullScan(d: int, text: string)
    requires forall i :: 0 <= i < |text| ==> Dull(text[i])
    ensures After(Scan(d, false, false), text) == Scan(d, false, false)
  {
    if text != "" { DullScan(d, text[..|text| - 1]); }
  }

  /** Within a string, text without quotes and backslashes changes nothing. */
  lemma {:induction false} InsideRun(d: int, text: string)
    requires forall i :: 0 <= i < |text| ==> text[i] != '"' && text[i] != '\\'
    ensures After(Scan(d, true, false), text) == Scan(d, true, false)
  {
    if text != "" { InsideRun(d, text[..|text| - 1]); }
  }

  lemma One(s: Scan, c: char)
    ensures After(s, [c]) == Next(s, c)
  {
  }

  lemma Two(s: Scan, a: char, b: char)
    ensures After(s, [a, b]) == Next(Next(s, a), b)
  {
    One(s, a);
    assert [a, b][..1] == [a];
  }

  predicate InString(d: int, s: Scan) {
    s.inString && s.depth == d
  }

  lemma PieceStaysInside(d: int, p: Piece, k: nat)
    requires PieceOk(p) && k <= |PrintPiece(p)|
    ensures InString(d, After(Scan(d, true, false), PrintPiece(p)[..k]))
    ensures After(Scan(d, true, false), PrintPiece(p)) == Scan(d, true, false)
  {
    var s := Scan(d, true, false);
    var text := PrintPiece(p);
    assert text[..|text|] == text;
    match p {
      case Plain(c) =>
        One(s, c);
        assert text[..0] == "";
      case Escape(c) =>
        One(s, '\\');
        Two(s, '\\', c);
        assert text[..0] == "" && text[..1] == ['\\'];
      case Unicode(x) =>
        One(s, '\\');
        Two(s, '\\', 'u');
        assert text[..0] == "" && text[..1] == ['\\'];
        UnicodePrefix(d, x, |x|);
        if k >= 2 { UnicodePrefix(d, x, k - 2); }
    }
  }

  lemma UnicodePrefix(d: int, x: string, k: nat)
    requires PieceOk(Unicode(x)) && k <= |x|
    ensures After(Scan(d, true, false), PrintPiece(Unicode(x))[..k + 2]) == Scan(d, true, false)
  {
    Two(Scan(d, true, false), '\\', 'u');
    assert PrintPiece(Unicode(x))[..k + 2] == ['\\', 'u'] + x[..k];
    AfterConcat(Scan(d, true, false), ['\\', 'u'], x[..k]);
    InsideRun(d, x[..k]);
  }

  /** The pieces of a string keep the scanner inside the string, and it ends between escapes. */
  lemma {:induction false} PiecesStayInside(d: int, pieces: seq<Piece>, k: nat)
    requires TextOk(pieces) && k <= |PrintPieces(pieces)|
    ensures InString(d, After(Scan(d, true, false), PrintPieces(pieces)[..k]))
    ensures After(Scan(d, true, false), PrintPieces(pieces)) == Scan(d, true, false)
  {
    var s := Scan(d, true, false);
    if pieces == [] {
      assert PrintPieces(pieces)[..k] == "";
    } else {
      var init, last := pieces[..|pieces| - 1], PrintPiece(Last(pieces));
      PiecesStayInside(d, init, if k <= |PrintPieces(init)| then k else 0);
      AfterConcat(s, PrintPieces(init), last);
      PieceStaysInside(d, Last(pieces), 0);
      if k <= |PrintPieces(init)| {
        assert PrintPieces(pieces)[..k] == PrintPieces(init)[..k];
      } else {
        var m := k - |PrintPieces(init)|;
        assert PrintPieces(pieces)[..k] == PrintPieces(init) + last[..m];
        AfterConcat(s, PrintPieces(init), last[..m]);
        PieceStaysInside(d, Last(pieces), m);
      }
    }
  }

  lemma TextScan(d: int, pieces: seq<Piece>, k: nat)
    requires TextOk(pieces) && k <= |PrintText(pieces)|
    ensures After(Scan(d, false, false), PrintText(pieces)[..k]).depth == d
    ensures After(Scan(d, false, false), PrintText(pieces)) == Scan(d, false, false)
  {
    var s := Scan(d, false, false);
    var body, text := PrintPieces(pieces), PrintText(pieces);
    WholeTextScan(d, pieces);
    assert text[..|text|] == text && text[..0] == "";
    if 0 < k < |text| {
      assert text[..k] == "\"" + body[..k - 1];
      One(s, '"');
      AfterConcat(s, "\"", body[..k - 1]);
      PiecesStayInside(d, pieces, k - 1);
    }
  }

  lemma WholeTextScan(d: int, pieces: seq<Piece>)
    requires TextOk(pieces)
    ensures After(Scan(d, false, false), PrintText(pieces)) == Scan(d, false, false)
  {
    var s := Scan(d, false, false);
    var body := PrintPieces(pieces);
    One(s, '"');
    One(Scan(d, true, false), '"');
    AfterConcat(s, "\"", body);
    AfterConcat(s, "\"" + body, "\"");
    PiecesStayInside(d, pieces, 0);
  }

  lemma TextIsNeutral(pieces: seq<Piece>)
    requires TextOk(pieces)
    ensures Neutral(PrintText(pieces))
  {
    var text := PrintText(pieces);
    forall d: int ensures After(Scan(d, false, false), text) == Scan(d, false, false) && StaysAbove(d, text) {
      forall k | 0 <= k <= |text| ensures After(Scan(d, false, false), text[..k]).depth >= d { TextScan(d, pieces, k); }
      TextScan(d, pieces, 0);
    }
  }

  /** Braces around neutral text: the depth is above where it started until the closing brace. */
  lemma BracedScan(d: int, inside: string, k: nat)
    requires Neutral(inside) && k <= |inside| + 2
    ensures var text := "{" + inside + "}"; var depth := After(Scan(d, false, false), text[..k]).depth;
      && After(Scan(d, false, false), text) == Scan(d, false, false)
      && depth >= d && (0 < k < |text| ==> depth > d)
  {
    var s := Scan(d, false, false);
    var text := "{" + inside + "}";
    One(s, '{');
    One(Scan(d + 1, false, false), '}');
    AfterConcat(s, "{", inside);
    AfterConcat(s, "{" + inside, "}");
    if k == 0 {
      assert text[..k] == "";
    } else if k == |text| {
      assert text[..k] == text;
    } else {
      assert StaysAbove(d + 1, inside);
      assert text[..k] == "{" + inside[..k - 1];
      AfterConcat(s, "{", inside[..k - 1]);
    }
  }

  lemma BracedStaysAbove(d: int, inside: string)
    requires Neutral(inside)
    ensures var text := "{" + inside + "}"; After(Scan(d, false, false), text) == Scan(d, false, false) && StaysAbove(d, text)
  {
    BracedScan(d, inside, 0);
    forall k | 0 <= k <= |inside| + 2 { BracedScan(d, inside, k); }
  }

  lemma BracedIsNeutral(inside: string)
    requires Neutral(inside)
    ensures Neutral("{" + inside + "}")
  {
    forall d: int { BracedStaysAbove(d, inside); }
  }

  lemma {:induction false} ValueIsNeutral(v: Value)
    requires ValueOk(v)
    ensures Neutral(Print(v))
    ensures v.Members? ==> Neutral(Inside(v.inner, v.members))
  {
    match v {
      case Scalar(s) => DullIsNeutral(s);
      case Text(pieces) => TextIsNeutral(pieces);
      case Array(inner, items) =>
        DullIsNeutral("[");
        DullIsNeutral("]");
        if items == [] { DullIsNeutral(inner); } else { ItemsAreNeutral(items); }
        var body := if items == [] then inner else PrintItems(items);
        NeutralConcat("[", body);
        NeutralConcat("[" + body, "]");
      case Members(inner, members) =>
        if members == [] { DullIsNeutral(inner); } else { MembersAreNeutral(members); }
        BracedIsNeutral(Inside(inner, members));
    }
  }

  lemma {:induction false} ItemIsNeutral(i: Item)
    requires ItemOk(i)
    ensures Neutral(PrintItem(i))
  {
    DullIsNeutral(i.before);
    DullIsNeutral(i.after);
    ValueIsNeutral(i.value);
    NeutralConcat(i.before, Print(i.value));
    NeutralConcat(i.before + Print(i.value), i.after);
  }

  lemma {:induction false} ItemsAreNeutral(items: seq<Item>)
    requires items != [] && forall i :: 0 <= i < |items| ==> ItemOk(items[i])
    ensures Neutral(PrintItems(items))
  {
    ItemIsNeutral(items[0]);
    if |items| > 1 {
      ItemsAreNeutral(items[1..]);
      DullIsNeutral(",");
      NeutralConcat(PrintItem(items[0]), ",");
      NeutralConcat(PrintItem(items[0]) + ",", PrintItems(items[1..]));
    }
  }

  lemma {:induction false} MemberIsNeutral(m: Member)
    requires MemberOk(m)
    ensures Neutral(PrintMember(m))
  {
    DullIsNeutral(m.before);
    DullIsNeutral(m.afterName);
    DullIsNeutral(":");
    TextIsNeutral(m.name);
    ItemIsNeutral(m.item);
    NeutralConcat(m.before, PrintText(m.name));
    NeutralConcat(m.before + PrintText(m.name), m.afterName);
    NeutralConcat(m.before + PrintText(m.name) + m.afterName, ":");
    NeutralConcat(m.before + PrintText(m.name) + m.afterName + ":", PrintItem(m.item));
  }

  lemma {:induction false} MembersAreNeutral(members: seq<Member>)
    requires members != [] && forall i :: 0 <= i < |members| ==> MemberOk(members[i])
    ensures Neutral(PrintMembers(members))
    decreases members
  {
    MemberIsNeutral(members[0]);
    if |members| > 1 {
      MembersAreNeutral(members[1..]);
      DullIsNeutral(",");
      NeutralConcat(PrintMember(members[0]), ",");
      NeutralConcat(PrintMember(members[0]) + ",", PrintMembers(members[1..]));
    }
  }

  // ---- main results ----

  lemma Middle(prefix: string, text: string, suffix: string, k: nat)
    requires k <= |text|
    ensures (prefix + text + suffix)[|prefix|..|prefix| + k] == text[..k]
  {
  }

  lemma PrintedScan(text: string, inside: string, k: nat)
    requires Neutral(inside) && text == "{" + inside + "}" && 0 < k <= |text|
    ensures if k < |text| then After(START, text[..k]).depth > 0 else After(START, text[..k]).depth == 0
  {
    BracedScan(0, inside, k);
    assert text[..|text|] == text;
  }

  lemma MiddleScan(prefix: string, text: string, inside: string, suffix: string, j: nat)
    requires Neutral(inside) && text == "{" + inside + "}" && |prefix| < j <= |prefix| + |text|
    ensures var depth := After(START, (prefix + text + suffix)[|prefix|..j]).depth;
      if j < |prefix| + |text| then depth > 0 else depth == 0
  {
    Middle(prefix, text, suffix, j - |prefix|);
    PrintedScan(text, inside, j - |prefix|);
  }

  lemma BracedTextIsOneBlock(prefix: string, text: string, inside: string, suffix: string)
    requires Neutral(inside) && text == "{" + inside + "}"
    ensures Block(prefix + text + suffix, |prefix|, |prefix| + |text| - 1)
  {
    var content := prefix + text + suffix;
    var i := |prefix|;
    MiddleScan(prefix, text, inside, suffix, i + |text|);
    assert content[i] == text[0] == '{';
    forall j | i < j <= i + |text| - 1 ensures After(START, content[i..j]).depth > 0 {
      MiddleScan(prefix, text, inside, suffix, j);
    }
  }

  /** Wherever a printed object stands, whatever is around it, the scan that starts at its first
      brace stops exactly at its own last brace. */
  lemma ObjectIsOneBlock(prefix: string, v: Value, suffix: string)
    requires v.Members? && ValueOk(v)
    ensures Print(v) != "" && Block(prefix + Print(v) + suffix, |prefix|, |prefix| + |Print(v)| - 1)
  {
    ValueIsNeutral(v);
    BracedTextIsOneBlock(prefix, Print(v), Inside(v.inner, v.members), suffix);
  }

  /** So a printed object that is no tool call is always a candidate: the result has at least as
      many keys, unless another block of the text makes the parser or the name check raise. */
  lemma ResultCoversObject(cfg: Config, prefix: string, v: Value, suffix: string, members: Fields, r: Result)
    requires v.Members? && ValueOk(v)
    requires cfg.loads(Print(v)) == Decoded(Object(members)) && !ToolCall(cfg, members) && !Unnameable(members)
    requires IsResult(cfg, prefix + Print(v) + suffix, r)
    ensures CandidateAt(cfg, prefix + Print(v) + suffix, |prefix|, members)
    ensures r.Raised? || (r.Picked? && |r.members| >= |members|)
  {
    var content := prefix + Print(v) + suffix;
    var i, j := |prefix|, |prefix| + |Print(v)| - 1;
    ObjectIsOneBlock(prefix, v, suffix);
    assert content[i..j + 1] == Print(v);
    assert CandidateAt(cfg, content, i, members);
  }

  /** A printed object whose name is a list or an object makes the whole call raise. */
  lemma UnhashableNameRaises(cfg: Config, prefix: string, v: Value, suffix: string, r: Result)
    requires v.Members? && ValueOk(v) && Breaks(cfg, Print(v))
    requires IsResult(cfg, prefix + Print(v) + suffix, r)
    ensures r == Raised
  {
    var content := prefix + Print(v) + suffix;
    var i, j := |prefix|, |prefix| + |Print(v)| - 1;
    ObjectIsOneBlock(prefix, v, suffix);
    assert content[i..j + 1] == Print(v);
    assert BreaksAt(cfg, content, i);
  }

  /** The result is not always an outermost object: when a nested object has more keys than the
      object around it, the outer one is not returned. */
  lemma NestedObjectWins(cfg: Config, prefix: string, inner: Value, suffix: string, few: Fields, many: Fields, r: Result)
    requires inner.Members? && ValueOk(inner) && Kept(cfg, Print(inner))
    requires cfg.loads(Print(inner)) == Decoded(Object(many))
    requires cfg.loads(prefix + Print(inner) + suffix) == Decoded(Object(few)) && |few| < |many|
    requires IsResult(cfg, prefix + Print(inner) + suffix, r)
    ensures r != Picked(few)
  {
    ResultCoversObject(cfg, prefix, inner, suffix, many, r);
  }

  /** The block at `i` lies in no other block. */
  ghost predicate Outermost(content: string, i: nat) {
    exists j: nat :: Block(content, i, j) && forall i': nat, j': nat :: i' < i && Block(content, i', j') ==> j' < j
  }

  /** The candidate has more keys than every nested one to its left, and as many as any to its right. */
  ghost predicate BeatsNested(cfg: Config, content: string, i: nat, members: Fields) {
    forall i': nat, m :: CandidateAt(cfg, content, i', m) && !Outermost(content, i') ==>
      |m| <= |members| && (i' < i ==> |m| < |members|)
  }

  /** When an outermost object is picked: the candidate that is picked starts at an outermost block if
      and only if some outermost candidate beats every nested one. */
  lemma OutermostPickedIff(cfg: Config, content: string, i: nat, members: Fields)
    requires FirstLargest(cfg, content, |content|, i, members)
    ensures Outermost(content, i) <==>
      exists o: nat, m :: CandidateAt(cfg, content, o, m) && Outermost(content, o) && BeatsNested(cfg, content, o, m)
  {
    NothingBeyond(cfg, content);
    if Outermost(content, i) { assert BeatsNested(cfg, content, i, members); }
    if o: nat, m :| CandidateAt(cfg, content, o, m) && Outermost(content, o) && BeatsNested(cfg, content, o, m) {
      assert o < |content| && |m| <= |members| && (o < i ==> |m| < |members|);
      assert CandidateAt(cfg, content, i, members);
    }
  }

  // ---- a text whose outermost object is not picked ----

  const TWO_KEYS := Members("", [
    Member("", [Plain('b')], "", Item("", Scalar("1"), "")), Member("", [Plain('c')], "", Item("", Scalar("2"), ""))])
  const INNER: string := "{\"b\":1,\"c\":2}"
  const OUTER: string := "{\"a\":{\"b\":1,\"c\":2}}"

  function Around(c: char, v: Value): Value {
    Members("", [Member("", [Plain(c)], "", Item("", v, ""))])
  }

  lemma PrintAround(c: char, v: Value)
    ensures Print(Around(c, v)) == "{\"" + [c] + "\":" + Print(v) + "}"
  {
    PrintOne(c, v);
    var members := Around(c, v).members;
    assert PrintMembers(members) == PrintMember(members[0]);
  }

  lemma AroundIsOk(c: char, v: Value)
    requires ValueOk(v) && PieceOk(Plain(c))
    ensures ValueOk(Around(c, v))
  {
    var member := Member("", [Plain(c)], "", Item("", v, ""));
    assert MemberOk(member);
  }

  lemma PrintOne(c: char, v: Value)
    ensures PrintMember(Member("", [Plain(c)], "", Item("", v, ""))) == "\"" + [c] + "\":" + Print(v)
  {
    PrintPlain(c);
  }

  lemma PrintPlain(c: char)
    ensures PrintText([Plain(c)]) == "\"" + [c] + "\""
  {
    assert [Plain(c)][..0] == [];
    assert PrintPieces([Plain(c)]) == [c];
  }

  lemma PrintsInner()
    ensures Print(TWO_KEYS) == INNER
  {
    PrintOne('b', Scalar("1"));
    PrintOne('c', Scalar("2"));
    var members := TWO_KEYS.members;
    assert members[1..] == [members[1]];
    assert PrintMembers(members) == PrintMember(members[0]) + "," + PrintMembers(members[1..]);
    assert Print(TWO_KEYS) == "{" + PrintMembers(members) + "}";
  }

  lemma InnerIsOk()
    ensures ValueOk(TWO_KEYS)
  {
  }

  lemma OuterParts()
    ensures OUTER == "{\"a\":" + INNER + "}" && |OUTER| == 19 && |INNER| == 13
    ensures OUTER[0..19] == OUTER && OUTER[5..18] == INNER
    ensures forall i :: 0 <= i < |OUTER| && OUTER[i] == '{' ==> i == 0 || i == 5
  {
  }

  lemma OuterBlocks()
    ensures Block(OUTER, 0, 18) && Block(OUTER, 5, 17)
  {
    PrintsInner();
    InnerIsOk();
    BlocksAround(TWO_KEYS);
  }

  lemma BlocksAround(inner: Value)
    requires inner.Members? && ValueOk(inner) && Print(inner) == INNER
    ensures Block(OUTER, 0, 18) && Block(OUTER, 5, 17)
  {
    OuterParts();
    PrintAround('a', inner);
    AroundIsOk('a', inner);
    BlockIn(OUTER, "", Around('a', inner), "");
    BlockIn(OUTER, "{\"a\":", inner, "}");
  }

  lemma BlockIn(content: string, prefix: string, v: Value, suffix: string)
    requires v.Members? && ValueOk(v) && content == prefix + Print(v) + suffix
    ensures Print(v) != "" && Block(content, |prefix|, |prefix| + |Print(v)| - 1)
  {
    ObjectIsOneBlock(prefix, v, suffix);
  }

  lemma BlockIsUnique(content: string, i: nat, j: nat, j': nat)
    requires Block(content, i, j) && Block(content, i, j')
    ensures j == j'
  {
  }

  lemma OnlyOuterBlocks(i: nat, j: nat)
    requires Block(OUTER, i, j)
    ensures (i, j) == (0, 18) || (i, j) == (5, 17)
  {
    OuterParts();
    OuterBlocks();
    BlockIsUnique(OUTER, i, j, if i == 0 then 18 else 17);
  }

  /** `{"a":{"b":1,"c":2}}`: the nested object with its two keys is returned, not the object around
      it, for every parser that reads the two texts as JSON does. */
  lemma NestedObjectIsReturned(cfg: Config, r: Result)
    requires cfg.loads(INNER) == Decoded(Object(map["b" := Number("1"), "c" := Number("2")]))
    requires cfg.loads(OUTER) == Decoded(Object(map["a" := Object(map["b" := Number("1"), "c" := Number("2")])]))
    requires IsResult(cfg, OUTER, r)
    ensures r == Picked(map["b" := Number("1"), "c" := Number("2")])
    ensures FirstLargest(cfg, OUTER, |OUTER|, 5, r.members) && !Outermost(OUTER, 5)
  {
    var inner: Fields := map["b" := Number("1"), "c" := Number("2")];
    var outer: Fields := map["a" := Object(inner)];
    assert |inner| == 2 && |outer| == 1;
    InnerIsLargest(cfg, inner, outer);
    OuterBlocks();
    OnlyTheseCandidates(cfg, inner, outer);
    ResultIsUnique(cfg, OUTER, r, Picked(inner));
    InnerIsNested();
  }

  lemma InnerIsNested()
    ensures !Outermost(OUTER, 5)
  {
    OuterBlocks();
    forall j: nat | Block(OUTER, 5, j) ensures j == 17 { OnlyOuterBlocks(5, j); }
  }

  lemma InnerIsLargest(cfg: Config, inner: Fields, outer: Fields)
    requires cfg.loads(INNER) == Decoded(Object(inner)) && cfg.loads(OUTER) == Decoded(Object(outer))
    requires Kept(cfg, INNER) && Kept(cfg, OUTER) && |outer| < |inner|
    ensures FirstLargest(cfg, OUTER, |OUTER|, 5, inner)
  {
    OuterParts();
    OuterBlocks();
    assert OUTER[5..17 + 1] == INNER;
    assert CandidateAt(cfg, OUTER, 5, inner);
    OnlyTheseCandidates(cfg, inner, outer);
  }

  lemma OnlyTheseCandidates(cfg: Config, inner: Fields, outer: Fields)
    requires cfg.loads(INNER) == Decoded(Object(inner)) && cfg.loads(OUTER) == Decoded(Object(outer))
    requires Kept(cfg, INNER) && Kept(cfg, OUTER)
    ensures forall i: nat :: !BreaksAt(cfg, OUTER, i)
    ensures forall i: nat, m :: CandidateAt(cfg, OUTER, i, m) ==> (i == 0 && m == outer) || (i == 5 && m == inner)
  {
    OuterParts();
    forall i: nat, j: nat | Block(OUTER, i, j) ensures (i, j) == (0, 18) || (i, j) == (5, 17) { OnlyOuterBlocks(i, j); }
  }

  /** Two results of the same text are equal: the first of the largest candidates is unique. */
  lemma ResultIsUnique(cfg: Config, content: string, r: Result, r': Result)
    requires IsResult(cfg, content, r) && IsResult(cfg, content, r')
    ensures r == r'
  {
  }
}
