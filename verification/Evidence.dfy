/** JSON values, their printers and parser, and the two digests, as both logs use them. The digests
    are arbitrary functions to 64 hexadecimal digits: nothing here assumes that they have no
    collisions, and each binding result names the collision that would break it. */
module Evidence {

  /** Numbers keep their printed form. */
  datatype Json = Null | Bool(value: bool) | Number(lexeme: string) | String(text: string)
                | List(items: seq<Json>) | Object(members: map<string, Json>)

  type Fields = map<string, Json>

  /** What `json.loads` makes of a text. */
  datatype Parsed = NotJson | NotObject | Record(fields: Fields)

  /** `line` prints with default separators, `canonical` with sorted keys, `compact` with sorted keys
      and no spaces; `text` is Python's `str`; `finite` says that no NaN or infinity occurs. */
  datatype Codec = Codec(
    line: Fields -> string, canonical: Fields -> string, compact: Fields -> string,
    finite: Fields -> bool, loads: string -> Parsed, text: Json -> string,
    sha: string -> string, mac: string -> string)

  predicate Hex(c: char) {
    '0' <= c <= '9' || 'a' <= c <= 'f'
  }

  predicate Digest(s: string) {
    |s| == 64 && forall i :: 0 <= i < |s| ==> Hex(s[i])
  }

  ghost predicate Sound(c: Codec) {
    && (forall f :: c.loads(c.line(f)) == Record(f))
    && (forall f :: c.loads(c.canonical(f)) == Record(f))
    && (forall f :: c.loads(c.compact(f)) == Record(f))
    && (forall s :: c.loads(s).Record? ==> s != "" && !Hex(s[0]))
    && (forall s :: c.text(String(s)) == s)
    && (forall s :: Digest(c.sha(s)))
    && (forall s :: Digest(c.mac(s)))
  }

  /** Within `inputs`, equal digests come from equal texts. */
  ghost predicate CollisionFree(c: Codec, inputs: iset<string>) {
    forall x, y :: x in inputs && y in inputs && c.sha(x) == c.sha(y) ==> x == y
  }

  /** Python's truth value; `nonzero` says which printed numbers differ from zero. */
  predicate Truthy(nonzero: string -> bool, v: Json) {
    match v
    case Null => false
    case Bool(b) => b
    case Number(lexeme) => nonzero(lexeme)
    case String(text) => text != ""
    case List(items) => items != []
    case Object(members) => members != map[]
  }

  function Get(f: Fields, key: string, default: Json): Json {
    if key in f then f[key] else default
  }

  lemma CanonicalIsInjective(c: Codec, f: Fields, g: Fields)
    requires Sound(c) && c.canonical(f) == c.canonical(g)
    ensures f == g
  {
  }

  /** A text followed by a signature decodes uniquely. */
  lemma SignedTextDecodes(a: string, s: string, b: string, t: string)
    requires |s| == 64 && |t| == 64 && a + s == b + t
    ensures a == b && s == t
  {
    assert |a + s| == |b + t|;
    assert a == (a + s)[..|a|] && b == (b + t)[..|b|];
    assert s == (a + s)[|a|..] && t == (b + t)[|b|..];
  }

  /** The previous digest, or nothing, followed by the text of an object decodes uniquely. */
  lemma LinkedTextDecodes(p: string, a: string, q: string, b: string)
    requires (p == "" || Digest(p)) && (q == "" || Digest(q))
    requires a != "" && b != "" && !Hex(a[0]) && !Hex(b[0])
    requires p + a == q + b
    ensures p == q && a == b
  {
    assert (p + a)[|p|] == a[0] && (q + b)[|q|] == b[0];
    assert |p| > 0 ==> (p + a)[0] == p[0];
    assert |q| > 0 ==> (q + b)[0] == q[0];
    assert |p| == |q|;
    assert p == (p + a)[..|p|] && q == (q + b)[..|q|];
    assert a == (p + a)[|p|..] && b == (q + b)[|q|..];
  }
}
