/** Which object of a printed one `_try_parse_json` returns, told from the object itself: where its
    strings hold no opening brace, the blocks of the text are the printed objects in it. */
module PrintedObjects {
  import opened Basics
  import opened Evidence
  import opened BraceScanner
  import S = BraceScanner

  /** `n` is `v` or lies in it. */
  ghost predicate Holds(v: Value, n: Value) {
    || n == v
    || (v.Array? && exists k :: 0 <= k < |v.items| && Holds(v.items[k].value, n))
    || (v.Members? && exists k :: 0 <= k < |v.members| && Holds(v.members[k].item.value, n))
  }

  predicate NoBrace(pieces: seq<Piece>) {
    forall i :: 0 <= i < |pieces| ==> pieces[i] != Plain('{')
  }

  /** No string or name of the value holds an opening brace. */
  predicate BracesMarkObjects(v: Value) {
    match v
    case Scalar(_) => true
    case Text(pieces) => NoBrace(pieces)
    case Array(_, items) => forall i :: 0 <= i < |items| ==> BracesMarkObjects(items[i].value)
    case Members(_, members) =>
      forall i :: 0 <= i < |members| ==> NoBrace(members[i].name) && BracesMarkObjects(members[i].item.value)
  }

  /** An object or other value as the printer takes it. */
  predicate Printable(v: Value) {
    ValueOk(v) && BracesMarkObjects(v)
  }

  predicate PrintableItem(i: Item) {
    ItemOk(i) && BracesMarkObjects(i.value)
  }

  predicate PrintableMember(m: Member) {
    MemberOk(m) && NoBrace(m.name) && BracesMarkObjects(m.item.value)
  }

  // ---- text without braces ----

  lemma {:induction false} PiecesHaveNoBrace(pieces: seq<Piece>)
    requires TextOk(pieces) && NoBrace(pieces)
    ensures '{' !in PrintPieces(pieces)
  {
    if pieces != [] {
      PiecesHaveNoBrace(pieces[..|pieces| - 1]);
      assert PieceOk(Last(pieces)) && Last(pieces) != Plain('{');
    }
  }

  lemma TextHasNoBrace(pieces: seq<Piece>)
    requires TextOk(pieces) && NoBrace(pieces)
    ensures '{' !in PrintText(pieces)
  {
    PiecesHaveNoBrace(pieces);
  }

  lemma SpaceHasNoBrace(s: string)
    requires Space(s)
    ensures '{' !in s
  {
  }

  lemma ScalarHasNoBrace(s: string)
    requires ScalarOk(s)
    ensures '{' !in s
  {
  }

  /** A member up to its value. */
  function Label(m: Member): string {
    m.before + PrintText(m.name) + m.afterName + ":" + m.item.before
  }

  lemma LabelHasNoBrace(m: Member)
    requires PrintableMember(m)
    ensures '{' !in Label(m)
  {
    assert ItemOk(m.item);
    TextHasNoBrace(m.name);
    SpaceHasNoBrace(m.before);
    SpaceHasNoBrace(m.afterName);
    SpaceHasNoBrace(m.item.before);
  }

  lemma MemberPrinted(m: Member)
    ensures PrintMember(m) == Label(m) + Print(m.item.value) + m.item.after
  {
    Regroup(m.before + PrintText(m.name) + m.afterName + ":", m.item.before, Print(m.item.value), m.item.after);
  }

  lemma Regroup(front: string, a: string, middle: string, b: string)
    ensures front + (a + middle + b) == (front + a) + middle + b
  {
  }

  // ---- where a value stands in the text around it ----

  /** The text is `value` printed, behind `a` and before `b`. */
  predicate Split(text: string, a: string, value: Value, b: string) {
    text == a + Print(value) + b
  }

  lemma SplitAfter(first: string, text: string, a: string, v: Value, b: string)
    requires Split(text, a, v, b)
    ensures Split(first + text, first + a, v, b)
  {
    Regroup(first, a, Print(v), b);
  }

  lemma SplitBefore(text: string, a: string, v: Value, b: string, last: string)
    requires Split(text, a, v, b)
    ensures Split(text + last, a, v, b + last)
  {
    assert a + Print(v) + b + last == a + Print(v) + (b + last);
  }

  lemma SplitInner(text: string, a: string, v: Value, b: string, c: string, n: Value, d: string)
    requires Split(text, a, v, b) && Split(Print(v), c, n, d)
    ensures Split(text, a + c, n, d + b)
  {
    SplitAfter(a, Print(v), c, n, d);
    SplitBefore(a + Print(v), a + c, n, d, b);
  }

  /** The character at `j` is an opening brace of the value. */
  predicate BraceIn(a: string, value: Value, j: nat) {
    |a| <= j < |a| + |Print(value)| && Print(value)[j - |a|] == '{'
  }

  lemma BraceBetween(text: string, a: string, v: Value, b: string, j: nat)
    requires Split(text, a, v, b) && '{' !in a && '{' !in b && j < |text| && text[j] == '{'
    ensures BraceIn(a, v, j)
  {
    CharacterOf(a, Print(v), b, j);
  }

  lemma CharacterOf(a: string, middle: string, b: string, j: nat)
    requires j < |a + middle + b|
    ensures j < |a| ==> (a + middle + b)[j] in a
    ensures |a| <= j < |a| + |middle| ==> (a + middle + b)[j] == middle[j - |a|]
    ensures j >= |a| + |middle| ==> (a + middle + b)[j] in b
  {
  }

  /** Where the value of an item stands. */
  lemma {:induction false} ItemAt(items: seq<Item>, k: nat) returns (a: string, b: string)
    requires k < |items|
    ensures Split(PrintItems(items), a, items[k].value, b)
  {
    a, b := items[0].before, items[0].after;
    if |items| > 1 {
      var first := PrintItem(items[0]) + ",";
      if k == 0 {
        SplitBefore(PrintItem(items[0]), a, items[0].value, b, ",");
        SplitBefore(first, a, items[0].value, b + ",", PrintItems(items[1..]));
        b := b + "," + PrintItems(items[1..]);
      } else {
        a, b := ItemAt(items[1..], k - 1);
        SplitAfter(first, PrintItems(items[1..]), a, items[k].value, b);
        a := first + a;
      }
    }
  }

  /** The item whose value an opening brace belongs to. */
  lemma {:induction false} ItemWithBrace(items: seq<Item>, j: nat) returns (k: nat, a: string, b: string)
    requires items != [] && (forall i :: 0 <= i < |items| ==> PrintableItem(items[i]))
    requires j < |PrintItems(items)| && PrintItems(items)[j] == '{'
    ensures k < |items| && Split(PrintItems(items), a, items[k].value, b) && BraceIn(a, items[k].value, j)
  {
    k, a, b := 0, items[0].before, items[0].after;
    assert PrintableItem(items[0]);
    SpaceHasNoBrace(a);
    SpaceHasNoBrace(b);
    if |items| == 1 {
      BraceBetween(PrintItems(items), a, items[0].value, b, j);
    } else {
      var first, rest := PrintItem(items[0]) + ",", PrintItems(items[1..]);
      if j < |first| {
        SplitBefore(PrintItem(items[0]), a, items[0].value, b, ",");
        BraceBetween(first, a, items[0].value, b + ",", j);
        SplitBefore(first, a, items[0].value, b + ",", rest);
        b := b + "," + rest;
      } else {
        k, a, b := ItemWithBrace(items[1..], j - |first|);
        SplitAfter(first, rest, a, items[1..][k].value, b);
        k, a := k + 1, first + a;
      }
    }
  }

  lemma {:induction false} MemberAt(members: seq<Member>, k: nat) returns (a: string, b: string)
    requires k < |members|
    ensures Split(PrintMembers(members), a, members[k].item.value, b)
  {
    a, b := Label(members[0]), members[0].item.after;
    MemberPrinted(members[0]);
    if |members| > 1 {
      var first := PrintMember(members[0]) + ",";
      if k == 0 {
        SplitBefore(PrintMember(members[0]), a, members[0].item.value, b, ",");
        SplitBefore(first, a, members[0].item.value, b + ",", PrintMembers(members[1..]));
        b := b + "," + PrintMembers(members[1..]);
      } else {
        a, b := MemberAt(members[1..], k - 1);
        SplitAfter(first, PrintMembers(members[1..]), a, members[k].item.value, b);
        a := first + a;
      }
    }
  }

  lemma {:induction false} MemberWithBrace(members: seq<Member>, j: nat) returns (k: nat, a: string, b: string)
    requires members != [] && (forall i :: 0 <= i < |members| ==> PrintableMember(members[i]))
    requires j < |PrintMembers(members)| && PrintMembers(members)[j] == '{'
    ensures k < |members| && Split(PrintMembers(members), a, members[k].item.value, b)
    ensures BraceIn(a, members[k].item.value, j)
  {
    k, a, b := 0, Label(members[0]), members[0].item.after;
    var value := members[0].item.value;
    LabelHasNoBrace(members[0]);
    assert ItemOk(members[0].item);
    SpaceHasNoBrace(b);
    MemberPrinted(members[0]);
    if |members| == 1 {
      BraceBetween(PrintMembers(members), a, value, b, j);
    } else {
      var first, rest := PrintMember(members[0]) + ",", PrintMembers(members[1..]);
      if j < |first| {
        SplitBefore(PrintMember(members[0]), a, value, b, ",");
        BraceBetween(first, a, value, b + ",", j);
        SplitBefore(first, a, value, b + ",", rest);
        b := b + "," + rest;
      } else {
        k, a, b := MemberWithBrace(members[1..], j - |first|);
        SplitAfter(first, rest, a, members[1..][k].item.value, b);
        k, a := k + 1, first + a;
      }
    }
  }

  /** The text of the parts of a value, in its brackets. */
  lemma SplitBracketed(text: string, open: string, inside: string, close: string, a: string, v: Value, b: string)
    requires text == open + inside + close && Split(inside, a, v, b)
    ensures Split(text, open + a, v, b + close)
  {
    SplitAfter(open, inside, a, v, b);
    SplitBefore(open + inside, open + a, v, b, close);
  }

  /** A part of the value: an item or the value of a member. */
  ghost predicate PartAt(v: Value, part: Value, a: string, b: string) {
    Split(Print(v), a, part, b)
    && ((v.Array? && exists k :: 0 <= k < |v.items| && v.items[k].value == part)
        || (v.Members? && exists k :: 0 <= k < |v.members| && v.members[k].item.value == part))
  }

  lemma PartOf(v: Value, n: Value) returns (part: Value, a: string, b: string)
    requires Holds(v, n) && n != v
    ensures PartAt(v, part, a, b) && Holds(part, n) && part < v
  {
    if v.Array? {
      var k :| 0 <= k < |v.items| && Holds(v.items[k].value, n);
      part := v.items[k].value;
      a, b := ItemAt(v.items, k);
      SplitBracketed(Print(v), "[", PrintItems(v.items), "]", a, part, b);
      a, b := "[" + a, b + "]";
    } else {
      var k :| 0 <= k < |v.members| && Holds(v.members[k].item.value, n);
      part := v.members[k].item.value;
      a, b := MemberAt(v.members, k);
      assert Inside(v.inner, v.members) == PrintMembers(v.members);
      SplitBracketed(Print(v), "{", PrintMembers(v.members), "}", a, part, b);
      a, b := "{" + a, b + "}";
    }
  }

  lemma PartWithBrace(v: Value, j: nat) returns (part: Value, a: string, b: string)
    requires Printable(v) && j < |Print(v)| && Print(v)[j] == '{' && (v.Members? ==> j > 0)
    ensures PartAt(v, part, a, b) && BraceIn(a, part, j) && Printable(part) && part < v
  {
    match v {
      case Scalar(s) => ScalarHasNoBrace(s);
      case Text(pieces) => TextHasNoBrace(pieces);
      case Array(_, _) => part, a, b := ItemPart(v, j);
      case Members(_, _) => part, a, b := MemberPart(v, j);
    }
  }

  lemma ItemPart(v: Value, j: nat) returns (part: Value, a: string, b: string)
    requires v.Array? && Printable(v) && j < |Print(v)| && Print(v)[j] == '{'
    ensures PartAt(v, part, a, b) && BraceIn(a, part, j) && Printable(part) && part < v
  {
    forall i | 0 <= i < |v.items| ensures PrintableItem(v.items[i]) { assert ItemOk(v.items[i]); }
    SpaceHasNoBrace(v.inner);
    var k, c, d := ItemWithBrace(v.items, j - 1);
    part, a, b := v.items[k].value, "[" + c, d + "]";
    SplitBracketed(Print(v), "[", PrintItems(v.items), "]", c, part, d);
    assert PrintableItem(v.items[k]);
  }

  lemma MemberPart(v: Value, j: nat) returns (part: Value, a: string, b: string)
    requires v.Members? && Printable(v) && 0 < j < |Print(v)| && Print(v)[j] == '{'
    ensures PartAt(v, part, a, b) && BraceIn(a, part, j) && Printable(part) && part < v
  {
    forall i | 0 <= i < |v.members| ensures PrintableMember(v.members[i]) { assert MemberOk(v.members[i]); }
    SpaceHasNoBrace(v.inner);
    var k, c, d := MemberWithBrace(v.members, j - 1);
    part, a, b := v.members[k].item.value, "{" + c, d + "}";
    SplitBracketed(Print(v), "{", PrintMembers(v.members), "}", c, part, d);
    assert PrintableMember(v.members[k]) && ItemOk(v.members[k].item);
  }

  /** Every value that is held stands somewhere in the text. */
  lemma {:induction false} HeldStands(v: Value, n: Value) returns (a: string, b: string)
    requires Holds(v, n)
    ensures Split(Print(v), a, n, b)
    decreases v
  {
    a, b := "", "";
    if n != v {
      var part, c, d := PartOf(v, n);
      a, b := HeldStands(part, n);
      SplitInner(Print(v), c, part, d, a, n, b);
      a, b := c + a, b + d;
    }
  }

  /** Every opening brace is the first character of an object that is held. */
  lemma {:induction false} BraceStartsObject(v: Value, j: nat) returns (n: Value, a: string, b: string)
    requires Printable(v) && j < |Print(v)| && Print(v)[j] == '{'
    ensures Holds(v, n) && n.Members? && ValueOk(n) && Split(Print(v), a, n, b) && |a| == j
    decreases v
  {
    n, a, b := v, "", "";
    if j > 0 || !v.Members? {
      var part, c, d := PartWithBrace(v, j);
      n, a, b := BraceStartsObject(part, j - |c|);
      SplitInner(Print(v), c, part, d, a, n, b);
      a, b := c + a, b + d;
    }
  }

  // ---- the blocks of the text ----

  /** In text without further braces around the value, the blocks are the objects that it holds. */
  lemma BlockIsHeld(prefix: string, v: Value, suffix: string, i: nat, j: nat) returns (n: Value)
    requires Printable(v) && '{' !in prefix && '{' !in suffix && Block(prefix + Print(v) + suffix, i, j)
    ensures Holds(v, n) && n.Members? && (prefix + Print(v) + suffix)[i..j + 1] == Print(n)
  {
    var content := prefix + Print(v) + suffix;
    BraceBetween(content, prefix, v, suffix, i);
    var a, b;
    n, a, b := BraceStartsObject(v, i - |prefix|);
    SplitInner(content, prefix, v, suffix, a, n, b);
    BlockText(content, prefix + a, n, b + suffix, j);
  }

  lemma BlockText(content: string, a: string, n: Value, b: string, j: nat)
    requires n.Members? && ValueOk(n) && Split(content, a, n, b) && Block(content, |a|, j)
    ensures content[|a|..j + 1] == Print(n)
  {
    BlockIn(content, a, n, b);
    BlockIsUnique(content, |a|, j, |a| + |Print(n)| - 1);
  }

  lemma HeldIsBlock(prefix: string, v: Value, suffix: string, n: Value) returns (i: nat, j: nat)
    requires Holds(v, n) && n.Members? && ValueOk(n)
    ensures Block(prefix + Print(v) + suffix, i, j) && (prefix + Print(v) + suffix)[i..j + 1] == Print(n)
  {
    var content := prefix + Print(v) + suffix;
    var a, b := HeldStands(v, n);
    SplitInner(content, prefix, v, suffix, a, n, b);
    i, j := |prefix + a|, |prefix + a| + |Print(n)| - 1;
    BlockIn(content, prefix + a, n, b + suffix);
    BlockText(content, prefix + a, n, b + suffix, j);
  }

  lemma {:induction false} HeldIsOk(v: Value, n: Value)
    requires ValueOk(v) && Holds(v, n)
    ensures ValueOk(n)
    decreases v
  {
    if n != v {
      if v.Array? {
        var k :| 0 <= k < |v.items| && Holds(v.items[k].value, n);
        assert ItemOk(v.items[k]);
        HeldIsOk(v.items[k].value, n);
      } else {
        var k :| 0 <= k < |v.members| && Holds(v.members[k].item.value, n);
        assert MemberOk(v.members[k]) && ItemOk(v.members[k].item);
        HeldIsOk(v.members[k].item.value, n);
      }
    }
  }

  // ---- which object is returned ----

  /** Reading no object of the value makes the call raise, and none that is kept has more keys. */
  ghost predicate LargestInside(cfg: Config, v: Value, members: Fields) {
    forall n :: Holds(v, n) && n.Members? ==>
      !Breaks(cfg, Print(n)) && forall m :: Kept(cfg, Print(n)) && cfg.loads(Print(n)) == Decoded(Object(m)) ==> |m| <= |members|
  }

  /** A printed object, in any text without further opening braces, is what the call returns if and
      only if no object nested in it has more keys or a name that makes the call raise. */
  lemma PrintedObjectPickedIff(cfg: Config, prefix: string, v: Value, suffix: string, members: Fields, r: S.Result)
    requires v.Members? && Printable(v) && '{' !in prefix && '{' !in suffix
    requires Kept(cfg, Print(v)) && cfg.loads(Print(v)) == Decoded(Object(members))
    requires IsResult(cfg, prefix + Print(v) + suffix, r)
    ensures r == Picked(members) <==> LargestInside(cfg, v, members)
  {
    if r == Picked(members) { PickedIsLargest(cfg, prefix, v, suffix, members); }
    if LargestInside(cfg, v, members) {
      LargestIsPicked(cfg, prefix, v, suffix, members);
      ResultIsUnique(cfg, prefix + Print(v) + suffix, r, Picked(members));
    }
  }

  lemma PickedIsLargest(cfg: Config, prefix: string, v: Value, suffix: string, members: Fields)
    requires ValueOk(v) && IsResult(cfg, prefix + Print(v) + suffix, Picked(members))
    ensures LargestInside(cfg, v, members)
  {
    var content := prefix + Print(v) + suffix;
    NothingBeyond(cfg, content);
    forall n | Holds(v, n) && n.Members?
      ensures !Breaks(cfg, Print(n))
      ensures forall m :: Kept(cfg, Print(n)) && cfg.loads(Print(n)) == Decoded(Object(m)) ==> |m| <= |members|
    {
      HeldIsOk(v, n);
      var i, j := HeldIsBlock(prefix, v, suffix, n);
      assert !BreaksAt(cfg, content, i);
      forall m | Kept(cfg, Print(n)) && cfg.loads(Print(n)) == Decoded(Object(m)) ensures |m| <= |members| {
        assert CandidateAt(cfg, content, i, m);
      }
    }
  }

  lemma LargestIsPicked(cfg: Config, prefix: string, v: Value, suffix: string, members: Fields)
    requires v.Members? && Printable(v) && '{' !in prefix && '{' !in suffix && LargestInside(cfg, v, members)
    requires Kept(cfg, Print(v)) && cfg.loads(Print(v)) == Decoded(Object(members))
    ensures IsResult(cfg, prefix + Print(v) + suffix, Picked(members))
  {
    var content := prefix + Print(v) + suffix;
    ObjectIsOneBlock(prefix, v, suffix);
    BlockText(content, prefix, v, suffix, |prefix| + |Print(v)| - 1);
    assert CandidateAt(cfg, content, |prefix|, members);
    forall i: nat ensures !BreaksAt(cfg, content, i) {
      if j: nat :| Block(content, i, j) && Breaks(cfg, content[i..j + 1]) { var n := BlockIsHeld(prefix, v, suffix, i, j); }
    }
    forall i: nat, m | CandidateAt(cfg, content, i, m) ensures |m| <= |members| && i >= |prefix| {
      var j: nat :| Block(content, i, j) && Kept(cfg, content[i..j + 1]) && cfg.loads(content[i..j + 1]) == Decoded(Object(m));
      var n := BlockIsHeld(prefix, v, suffix, i, j);
      BraceBetween(content, prefix, v, suffix, i);
    }
    assert FirstLargest(cfg, content, |content|, |prefix|, members);
  }
}
