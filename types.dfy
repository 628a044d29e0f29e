/**
 * Shapes shared by the adapter: document values, hits, configuration,
 * the parameters handed to the remote client, and chat messages.
 */
module Types {
  import opened Wrappers

  /**
   * A document or option value. Numbers, arrays and nested objects are opaque:
   * `Other` carries one such value, identified by an opaque rendering of it, and
   * `Render` of it stands for whatever text a template literal gives for that value.
   */
  datatype Value = Null | Undefined | Str(s: string) | Bool(b: bool) | Other(shown: string)

  /**
   * JavaScript's `.length` of a string: its UTF-16 code units. A character
   * outside the Basic Multilingual Plane takes two (a surrogate pair).
   */
  function Utf16Length(s: string): (n: nat)
    ensures |s| <= n <= 2 * |s|
  {
    if s == [] then 0 else Utf16Length(s[..|s| - 1]) + (if s[|s| - 1] as int > 0xFFFF then 2 else 1)
  }

  /** Code-unit lengths add up over concatenation. */
  lemma {:induction false} Utf16LengthAppend(a: string, b: string)
    ensures Utf16Length(a + b) == Utf16Length(a) + Utf16Length(b)
    decreases |b|
  {
    if b == [] {
      assert a + b == a;
    } else {
      assert (a + b)[..|a + b| - 1] == a + b[..|b| - 1];
      Utf16LengthAppend(a, b[..|b| - 1]);
    }
  }

  /** A string has at least as many code units as characters, and as many exactly when every character is in the Basic Multilingual Plane. */
  lemma {:induction false} Utf16LengthBounds(s: string)
    ensures |s| <= Utf16Length(s) <= 2 * |s|
    ensures Utf16Length(s) == |s| <==> forall i :: 0 <= i < |s| ==> s[i] as int <= 0xFFFF
  {
    if s != [] {
      var init := s[..|s| - 1];
      Utf16LengthBounds(init);
      assert forall i :: 0 <= i < |init| ==> init[i] == s[i];
    }
  }

  /** `null` and `undefined`, the values a loose `!= null` test rejects. */
  predicate IsNullish(v: Value)
    ensures IsNullish(v) ==> !v.Str? && !v.Bool? && !v.Other?
    ensures v == Str("") || v == Bool(false) ==> !IsNullish(v)
  {
    v.Null? || v.Undefined?
  }

  /** The text a template literal `${v}` produces for `v`. */
  function Render(v: Value): (r: string)
    ensures v.Str? ==> r == v.s
  {
    match v
    case Null => "null"
    case Undefined => "undefined"
    case Str(s) => s
    case Bool(b) => if b then "true" else "false"
    case Other(shown) => shown
  }

  /** One own property of a document, in the order `Object.entries` lists them. */
  datatype Entry = Entry(key: string, value: Value)
  type Document = seq<Entry>

  /**
   * A hit as the remote search returns it: the client's hit id (which the
   * projection to `{ document, score }` discards), the document and the score,
   * which is carried and never computed with.
   */
  datatype Hit = Hit(id: string, document: Document, score: real)

  /** A hit reduced to `{ document, score }`. */
  datatype ProjectedHit = ProjectedHit(document: Document, score: real)

  /** An options object or request body: property name to value. */
  type Params = map<string, Value>

  /** Reading a property of an options object; a missing one reads as `undefined`. */
  function Lookup(p: Params, key: string): (v: Value)
    ensures key !in p ==> v == Undefined
    ensures key in p ==> v == p[key]
  {
    if key in p then p[key] else Undefined
  }

  /** Projection of one hit to `{ document, score }`. */
  function Project(h: Hit): (p: ProjectedHit)
    ensures p.document == h.document && p.score == h.score
  {
    ProjectedHit(h.document, h.score)
  }

  /** Projection of a hit list, element by element. */
  function ProjectHits(hits: seq<Hit>): (r: seq<ProjectedHit>)
    ensures |r| == |hits|
    ensures forall i :: 0 <= i < |hits| ==> r[i].document == hits[i].document && r[i].score == hits[i].score
  {
    seq(|hits|, i requires 0 <= i < |hits| => Project(hits[i]))
  }

  /** Projecting a concatenation projects each part in place: order is kept, nothing is merged. */
  lemma ProjectHitsAppend(a: seq<Hit>, b: seq<Hit>)
    ensures ProjectHits(a + b) == ProjectHits(a) + ProjectHits(b)
  {
    var l, r := ProjectHits(a + b), ProjectHits(a) + ProjectHits(b);
    assert |l| == |r|;
    forall i | 0 <= i < |l| ensures l[i] == r[i] {
      if i < |a| {
        assert (a + b)[i] == a[i];
      } else {
        assert (a + b)[i] == b[i - |a|];
      }
    }
  }

  datatype SearchMode = Fulltext | Vector | Hybrid

  /** The wire name of a search mode. */
  function ModeName(m: SearchMode): (r: string)
    ensures m == Fulltext <==> r == "fulltext"
  {
    match m
    case Fulltext => "fulltext"
    case Vector => "vector"
    case Hybrid => "hybrid"
  }

  datatype InferenceType = Documentation

  /** The provider configuration; a field the caller left out is `None`. */
  datatype ProviderConfig = ProviderConfig(
    endpoint: Option<string>,
    apiKey: Option<string>,
    userContext: Option<Value>,
    inferenceType: Option<InferenceType>,
    searchMode: Option<SearchMode>,
    searchOptions: Option<Params>)

  /** What the remote client is constructed with. */
  datatype ClientParams = ClientParams(endpoint: Option<string>, apiKey: Option<string>)

  datatype OramaRole = User | Assistant

  /** A message in the remote client's conversation format (its generated id is not modelled). */
  datatype OramaMessage = OramaMessage(role: OramaRole, content: string)

  /** The parameters an answer session is created with (event callbacks are not modelled). */
  datatype AnswerSessionParams = AnswerSessionParams(
    userContext: Option<Value>,
    inferenceType: Option<InferenceType>,
    initialMessages: Option<seq<OramaMessage>>)

  /** A chat message of the host UI library: a free-form role and a text content. */
  datatype AiMessage = AiMessage(role: string, content: string)
}
