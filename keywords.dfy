/**
 * The keyword options of attach_endpoint: which of them belong to the
 * wrapper itself, the options the two routes are registered with, and the
 * endpoint identifiers derived from the rule.
 */
module Keywords {
  import opened Values

  /** TypedMounter.OWN_KEYS: options the wrapper reads and Flask must not see. */
  const OwnKeys: seq<string> := ["auto_document", "accept_files", "allowed_extensions"]

  predicate IsOwnKey(k: string)
  {
    k in OwnKeys
  }

  /** Python truthiness of an option value. */
  predicate Truthy(v: OptValue)
  {
    match v
    case PyNone => false
    case Bool(b) => b
    case Int(i) => i != 0
    case Str(s) => s != []
    case StrList(items) => items != []
  }

  /** options.get(key, default) */
  function Get(options: Options, key: string, default: OptValue): OptValue
  {
    if key in options then options[key] else default
  }

  /** The value `['POST']`, the only method list the API route accepts. */
  const PostOnly: OptValue := StrList(["POST"])

  /** The value `['GET']`, the method list of the documentation route. */
  const GetOnly: OptValue := StrList(["GET"])

  /** A copy of `options` without the wrapper's own keys. */
  function WithoutOwnKeys(options: Options): Options
  {
    options - set k | k in OwnKeys
  }

  /**
   * pop_own_keys: copies the dictionary and pops every own key from the
   * copy. Maps are values, so the caller's dictionary is untouched.
   */
  method PopOwnKeys(options: Options) returns (keys: Options)
    ensures forall k :: k in keys <==> k in options && !IsOwnKey(k)
    ensures forall k :: k in keys ==> keys[k] == options[k]
    ensures keys == WithoutOwnKeys(options)
  {
    keys := options;
    for i := 0 to |OwnKeys|
      invariant keys == options - set j | 0 <= j < i :: OwnKeys[j]
    {
      keys := keys - {OwnKeys[i]};
    }
    assert OwnKeys[0] == "auto_document" && OwnKeys[1] == "accept_files" && OwnKeys[2] == "allowed_extensions";
    assert (set j | 0 <= j < |OwnKeys| :: OwnKeys[j]) == {"auto_document", "accept_files", "allowed_extensions"};
  }

  /** The options of the documentation route: a copy with methods ['GET'], own keys removed. */
  function DocumentOptions(options: Options): (r: Options)
    ensures "methods" in r && r["methods"] == GetOnly
    ensures forall k :: k in r <==> (k == "methods" || k in options) && !IsOwnKey(k)
  {
    WithoutOwnKeys(options["methods" := GetOnly])
  }

  /** The options of the API route: a copy with methods ['POST'], own keys removed. */
  function ApiOptions(options: Options): (r: Options)
    ensures "methods" in r && r["methods"] == PostOnly
    ensures forall k :: k in r <==> (k == "methods" || k in options) && !IsOwnKey(k)
  {
    WithoutOwnKeys(options["methods" := PostOnly])
  }

  /** extract_document_options */
  method ExtractDocumentOptions(options: Options) returns (documentOptions: Options)
    ensures documentOptions == DocumentOptions(options)
  {
    documentOptions := options;
    documentOptions := documentOptions["methods" := GetOnly];
    documentOptions := PopOwnKeys(documentOptions);
  }

  /**
   * Both route option sets force their method list, carry no wrapper-only
   * key, and pass every other option through unchanged.
   */
  lemma RouteOptions(options: Options)
    ensures DocumentOptions(options)["methods"] == GetOnly
    ensures ApiOptions(options)["methods"] == PostOnly
    ensures forall k :: IsOwnKey(k) ==> k !in DocumentOptions(options) && k !in ApiOptions(options)
    ensures forall k :: k in options && k != "methods" && !IsOwnKey(k) ==>
              k in DocumentOptions(options) && DocumentOptions(options)[k] == options[k] &&
              k in ApiOptions(options) && ApiOptions(options)[k] == options[k]
    ensures forall k :: k in DocumentOptions(options) ==> k == "methods" || k in options
    ensures DocumentOptions(options).Keys == ApiOptions(options).Keys
  {
  }

  /** The endpoint identifier of the documentation route. */
  function DocEndpoint(rule: string): string
  {
    "doc_" + rule
  }

  /** The endpoint identifier of the API route. */
  function ApiEndpoint(rule: string): string
  {
    "api_" + rule
  }

  /**
   * No documentation endpoint is ever an API endpoint, and distinct rules
   * get distinct endpoints of each kind.
   */
  lemma EndpointsDistinct(rule1: string, rule2: string)
    ensures DocEndpoint(rule1) != ApiEndpoint(rule2)
    ensures DocEndpoint(rule1) == DocEndpoint(rule2) <==> rule1 == rule2
    ensures ApiEndpoint(rule1) == ApiEndpoint(rule2) <==> rule1 == rule2
  {
    assert DocEndpoint(rule1)[0] != ApiEndpoint(rule2)[0];
    assert DocEndpoint(rule1)[4..] == rule1 && DocEndpoint(rule2)[4..] == rule2;
    assert ApiEndpoint(rule1)[4..] == rule1 && ApiEndpoint(rule2)[4..] == rule2;
  }
}
