/**
 * The resolver factory: a resolver class is used as it is; a name is turned
 * into a constant name and looked up among the namespace's resolver classes.
 */
module Resolvers {
  import opened PersistedQueries

  /**
   * The resolver classes a schema may be configured with: the two strategies
   * of this model, or any other class, represented by what its `resolve`
   * answers for an item (such a class does not use the store here).
   */
  datatype ResolverClass<!D> =
    | StringResolverClass
    | DocumentResolverClass
    | CustomResolverClass(resolve: (QueryParams<D>, Extensions) -> Outcome<D>)

  /** What `build` is given: a class, or a name (a symbol such as `:string`). */
  datatype ResolverRef<!D> = ClassRef(cls: ResolverClass<D>) | NameRef(name: string)

  /** The NameError raised for a name without a resolver. */
  datatype NameError = NameError(message: string)

  /** The resolver constants of the namespace, by constant name. */
  function Constants<D>(): (constants: map<string, ResolverClass<D>>)
    ensures constants.Keys == {"StringResolver", "DocumentResolver"}
  {
    map["StringResolver" := StringResolverClass, "DocumentResolver" := DocumentResolverClass]
  }

  function Upcase(c: char): char {
    if 'a' <= c <= 'z' then (c as int - 32) as char else c
  }

  function Downcase(c: char): char {
    if 'A' <= c <= 'Z' then (c as int + 32) as char else c
  }

  /**
   * Camel-casing a name from position `i` on: its `_`-separated words, each
   * capitalised (first letter up, the rest down), joined. `wordStart` says
   * whether position `i` begins a word.
   */
  function CamelizeFrom(s: string, i: nat, wordStart: bool): (r: string)
    requires i <= |s|
    ensures |r| <= |s| - i
    ensures forall k :: 0 <= k < |r| ==> r[k] != '_'
    decreases |s| - i
  {
    if i == |s| then []
    else if s[i] == '_' then CamelizeFrom(s, i + 1, true)
    else [if wordStart then Upcase(s[i]) else Downcase(s[i])] + CamelizeFrom(s, i + 1, false)
  }

  function Camelize(name: string): (r: string)
    ensures |r| <= |name|
    ensures forall k :: 0 <= k < |r| ==> r[k] != '_'
  {
    CamelizeFrom(name, 0, true)
  }

  /** The constant `build_by_name` looks up for `name`. */
  function ConstantName(name: string): (constant: string)
    ensures |constant| == |Camelize(name)| + 8
    ensures constant[..|Camelize(name)|] == Camelize(name) && constant[|Camelize(name)|..] == "Resolver"
  {
    Camelize(name) + "Resolver"
  }

  /** The text of the error raised for a name without a resolver. */
  function NotFoundText(name: string): (message: string)
    ensures |message| == 30 + |name| + 19
    // the symbol can be read back from the message
    ensures message[..30] == "Persisted query resolver for :" && message[30 + |name|..] == " haven't been found"
    ensures message[30..30 + |name|] == name
  {
    "Persisted query resolver for :" + name + " haven't been found"
  }

  /** `build_by_name`: the resolver constant for `name`, or a descriptive NameError. */
  function BuildByName<D>(name: string): (r: Result<ResolverClass<D>, NameError>)
    ensures r.Ok? <==> ConstantName(name) in Constants<D>()
    ensures r.Ok? ==> r.value == Constants<D>()[ConstantName(name)]
    ensures r.Err? ==> r.error.message == NotFoundText(name)
  {
    var constant := ConstantName(name);
    if constant in Constants<D>() then Ok(Constants<D>()[constant])
    else Err(NameError(NotFoundText(name)))
  }

  /** `build`: a class comes back unchanged; a name is looked up. */
  function Build<D>(resolver: ResolverRef<D>): (r: Result<ResolverClass<D>, NameError>)
    ensures resolver.ClassRef? ==> r == Ok(resolver.cls)
    ensures resolver.NameRef? ==> (r.Ok? <==> ConstantName(resolver.name) in Constants<D>())
    ensures resolver.NameRef? && r.Ok? ==> r.value == Constants<D>()[ConstantName(resolver.name)]
    ensures resolver.NameRef? && r.Err? ==> r.error.message == NotFoundText(resolver.name)
  {
    match resolver
    case ClassRef(cls) => Ok(cls)
    case NameRef(name) => BuildByName(name)
  }

  /** Inside a word, lower-case letters are kept as they are. */
  lemma {:induction false} CamelizeKeepsLowerCase(s: string, i: nat)
    requires i <= |s|
    requires forall k :: i <= k < |s| ==> 'a' <= s[k] <= 'z'
    ensures CamelizeFrom(s, i, false) == s[i..]
    decreases |s| - i
  {
    if i < |s| {
      CamelizeKeepsLowerCase(s, i + 1);
      assert s[i..] == [s[i]] + s[i + 1..];
    }
  }

  /** A single lower-case word camel-cases to itself with its first letter up. */
  lemma CamelizeLowerWord(s: string)
    requires s != []
    requires forall k :: 0 <= k < |s| ==> 'a' <= s[k] <= 'z'
    ensures Camelize(s) == [Upcase(s[0])] + s[1..]
  {
    CamelizeKeepsLowerCase(s, 1);
  }

  /** `:string` names the constant `StringResolver`. */
  lemma StringConstantName()
    ensures ConstantName("string") == "StringResolver"
  {
    assert Camelize("string") == "String";
  }

  /** `:document` names the constant `DocumentResolver`. */
  lemma DocumentConstantName()
    ensures ConstantName("document") == "DocumentResolver"
  {
    assert Camelize("document") == "Document";
  }

  /** `:unknown` names the constant `UnknownResolver`, which the namespace does not have. */
  lemma UnknownConstantName()
    ensures ConstantName("unknown") == "UnknownResolver"
  {
    assert Camelize("unknown") == "Unknown";
  }

  /** The NameError text for `:unknown`. */
  lemma UnknownNotFoundText()
    ensures NotFoundText("unknown") == "Persisted query resolver for :unknown haven't been found"
  {
  }

  /** `build(:string)` is the text strategy. */
  lemma BuildString<D>()
    ensures Build<D>(NameRef("string")) == Ok(StringResolverClass)
  {
    StringConstantName();
  }

  /** `build(:document)` is the document strategy. */
  lemma BuildDocument<D>()
    ensures Build<D>(NameRef("document")) == Ok(DocumentResolverClass)
  {
    DocumentConstantName();
  }

  /** `build(:unknown)` fails with a NameError that names the symbol. */
  lemma BuildUnknownName<D>()
    ensures Build<D>(NameRef("unknown")) ==
      Err(NameError("Persisted query resolver for :unknown haven't been found"))
  {
    UnknownConstantName();
    UnknownNotFoundText();
  }
}
