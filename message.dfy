/**
 * The component's message-text normaliser: `isRecord` and `extractText` turn an
 * inbound message of unknown shape into the string shown in the transcript.
 */
module MessageText {
  import opened Wrappers

  /** A JavaScript value as far as the normaliser can observe it. */
  datatype Value =
    | Undefined
    | Null
    | Bool(b: bool)
    | Num(n: int)
    | Str(s: string)
    | Arr(items: seq<Value>)
    | Obj(fields: map<string, Value>)
    | Callable  // a function or a symbol: typeof is not 'object'

  /** `typeof value === 'object' && value !== null`; arrays are objects too. */
  predicate IsRecord(v: Value) {
    v.Obj? || v.Arr?
  }

  /** JavaScript truthiness, as used by `if (inner)` and `if (lastUserMessage)`. */
  predicate Truthy(v: Value) {
    match v
    case Undefined => false
    case Null => false
    case Bool(b) => b
    case Num(n) => n != 0
    case Str(s) => s != ""
    case _ => true
  }

  /**
   * Property read `v[key]`, for the keys the normaliser reads (`message`,
   * `content`, `text`). Only plain objects carry those properties here; an array,
   * a primitive or a missing entry yields `undefined`. Inherited properties such
   * as `toString` or an array's `length` are not modelled.
   */
  function Get(v: Value, key: string): (r: Value) {
    match v
    case Obj(fields) => if key in fields then fields[key] else Undefined
    case _ => Undefined
  }

  /**
   * `extractText(message)`. The serialiser `stringify` stands for `JSON.stringify`
   * applied to a record: `None` is the case where it throws.
   */
  function ExtractText(message: Value, stringify: Value -> Option<string>): (text: string) {
    if !IsRecord(message) then ""
    else
      var inner := if IsRecord(Get(message, "message")) then Get(message, "message") else Undefined;
      if Truthy(inner) && Get(inner, "content").Str? then Get(inner, "content").s
      else if Get(message, "content").Str? then Get(message, "content").s
      else if Get(message, "text").Str? then Get(message, "text").s
      else match stringify(message)
        case Some(json) => json
        case None => ""
  }

  // ---------------------------------------------------------------------------
  // An independent statement of the precedence: a ranked list of candidate
  // texts, of which the first one present is shown.

  /** The string stored under `key` directly in a plain object, if there is one. */
  function StringField(fields: map<string, Value>, key: string): (found: Option<string>) {
    if key in fields && fields[key].Str? then Some(fields[key].s) else None
  }

  /** The candidate texts of a record, highest precedence first. */
  function Candidates(message: Value, stringify: Value -> Option<string>): (cs: seq<Option<string>>)
    requires IsRecord(message)
    ensures |cs| == 4
  {
    match message
    case Arr(_) => [None, None, None, stringify(message)]
    case Obj(f) =>
      var nested := if "message" in f && f["message"].Obj? then StringField(f["message"].fields, "content") else None;
      [nested, StringField(f, "content"), StringField(f, "text"), stringify(message)]
  }

  /** The first present value of `cs`: every earlier one is absent. */
  function FirstPresent(cs: seq<Option<string>>): (r: Option<string>)
    ensures r.None? <==> forall i | 0 <= i < |cs| :: cs[i].None?
    ensures r.Some? ==> exists i | 0 <= i < |cs| :: cs[i] == r && forall j | 0 <= j < i :: cs[j].None?
  {
    if cs == [] then None
    else if cs[0].Some? then cs[0]
    else
      var r := FirstPresent(cs[1..]);
      assert r.Some? ==> exists i | 1 <= i < |cs| :: cs[i] == r && forall j | 0 <= j < i :: cs[j].None? by {
        if r.Some? {
          var k :| 0 <= k < |cs| - 1 && cs[1..][k] == r && forall j | 0 <= j < k :: cs[1..][j].None?;
          assert cs[k + 1] == r;
          assert forall j | 0 <= j < k + 1 :: cs[j].None? by {
            forall j | 0 <= j < k + 1 ensures cs[j].None? {
              if j > 0 { assert cs[j] == cs[1..][j - 1]; }
            }
          }
        }
      }
      assert r.None? ==> forall i | 0 <= i < |cs| :: cs[i].None? by {
        if r.None? {
          forall i | 0 <= i < |cs| ensures cs[i].None? {
            if i > 0 { assert cs[i] == cs[1..][i - 1]; }
          }
        }
      }
      r
  }

  lemma FirstPresentOfFour(a: Option<string>, b: Option<string>, c: Option<string>, d: Option<string>)
    ensures FirstPresent([a, b, c, d]) == if a.Some? then a else if b.Some? then b else if c.Some? then c else d
  {
    assert [d][1..] == [];
    assert FirstPresent([d]) == d;
    assert [c, d][1..] == [d];
    assert FirstPresent([c, d]) == if c.Some? then c else d;
    assert [b, c, d][1..] == [c, d];
    assert [a, b, c, d][1..] == [b, c, d];
  }

  /** `extractText` is the ranked choice: non-records give '', records the first candidate present, else ''. */
  lemma ExtractTextIsFirstPresent(message: Value, stringify: Value -> Option<string>)
    ensures ExtractText(message, stringify) ==
      if IsRecord(message) then FirstPresent(Candidates(message, stringify)).GetOr("") else ""
  {
    if IsRecord(message) {
      var cs := Candidates(message, stringify);
      FirstPresentOfFour(cs[0], cs[1], cs[2], cs[3]);
      assert cs == [cs[0], cs[1], cs[2], cs[3]];
    }
  }

  /** The text shown is never invented: it is '' or one of the message's candidate texts. */
  lemma ExtractTextFromCandidates(message: Value, stringify: Value -> Option<string>)
    ensures var r := ExtractText(message, stringify);
      r == "" || (IsRecord(message) && Some(r) in Candidates(message, stringify))
  {
  }

  // ---------------------------------------------------------------------------
  // The precedence rules one at a time.

  /** Anything that is not a non-null object (undefined, null, booleans, numbers, strings, functions) gives ''. */
  lemma NonRecordIsEmpty(message: Value, stringify: Value -> Option<string>)
    requires message.Undefined? || message.Null? || message.Bool? || message.Num? || message.Str? || message.Callable?
    ensures ExtractText(message, stringify) == ""
  {
  }

  /** A string `message.content` wins, whatever the outer `content` and `text` hold. */
  lemma NestedContentWins(outer: map<string, Value>, inner: map<string, Value>, content: string,
                          stringify: Value -> Option<string>)
    requires "message" in outer && outer["message"] == Obj(inner)
    requires "content" in inner && inner["content"] == Str(content)
    ensures ExtractText(Obj(outer), stringify) == content
  {
  }

  /** Without a nested string content, a string top-level `content` wins over `text`. */
  lemma ContentBeatsText(outer: map<string, Value>, content: string, stringify: Value -> Option<string>)
    requires Candidates(Obj(outer), stringify)[0].None?
    requires "content" in outer && outer["content"] == Str(content)
    ensures ExtractText(Obj(outer), stringify) == content
  {
  }

  /** With neither content alternative a string, a string `text` is shown. */
  lemma TextAsThirdChoice(outer: map<string, Value>, text: string, stringify: Value -> Option<string>)
    requires Candidates(Obj(outer), stringify)[0].None? && StringField(outer, "content").None?
    requires "text" in outer && outer["text"] == Str(text)
    ensures ExtractText(Obj(outer), stringify) == text
  {
  }

  /** While either content alternative is a string, whatever `text` holds makes no difference. */
  lemma TextIgnoredBesideContent(outer: map<string, Value>, text: Value, stringify: Value -> Option<string>)
    requires Candidates(Obj(outer), stringify)[0].Some? || StringField(outer, "content").Some?
    ensures ExtractText(Obj(outer["text" := text]), stringify) == ExtractText(Obj(outer), stringify)
  {
  }

  /**
   * A nested `message` that is not an object (or is an array), or whose `content`
   * is not a string, is skipped: the result is what it would be with `message`
   * holding nothing, apart from the serialisation of the whole message.
   */
  lemma NonStringNestedFallsThrough(outer: map<string, Value>, stringify: Value -> Option<string>)
    requires !("message" in outer && outer["message"].Obj? &&
               "content" in outer["message"].fields && outer["message"].fields["content"].Str?)
    ensures ExtractText(Obj(outer), stringify) ==
      ExtractText(Obj(outer - {"message"}), v => if v == Obj(outer - {"message"}) then stringify(Obj(outer)) else stringify(v))
  {
  }

  /** With no string field to show, the whole message is serialised, or '' if serialising throws. */
  lemma SerialisedFallback(message: Value, stringify: Value -> Option<string>)
    requires IsRecord(message)
    requires forall i | 0 <= i < 3 :: Candidates(message, stringify)[i].None?
    ensures ExtractText(message, stringify) == stringify(message).GetOr("")
  {
    var cs := Candidates(message, stringify);
    assert cs[0].None? && cs[1].None? && cs[2].None?;
  }

  /** The worked examples: each shape in turn, the empty object, and a serialiser that throws. */
  lemma ExtractTextExamples(stringify: Value -> Option<string>)
    requires stringify(Obj(map[])) == Some("{}")
    ensures ExtractText(Obj(map["message" := Obj(map["content" := Str("hi")])]), stringify) == "hi"
    ensures ExtractText(Obj(map["content" := Str("hi")]), stringify) == "hi"
    ensures ExtractText(Obj(map["text" := Str("hi")]), stringify) == "hi"
    ensures ExtractText(Obj(map[]), stringify) == "{}"
    ensures ExtractText(Obj(map[]), v => None) == ""
  {
  }
}
