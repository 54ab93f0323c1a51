/**
 Filter rulesets and the filter store, as in burnt-sushi-blocker/src/filters.rs.

 Regular expressions are not part of this model: a `Regex` value supplies the two facts the
 program uses, whether a non-empty list of patterns compiles into one set and whether a pattern
 matches a request.
 */
module Rules {

  datatype FilterHook = GetAddrInfo | CefUrlRequestCreate

  datatype Regex = Regex(compiles: seq<string> -> bool, matches: (string, string) -> bool)

  datatype Ruleset = Ruleset(whitelist: seq<string>, blacklist: seq<string>)

  /** The default ruleset of a store nobody has written to. */
  const EMPTY_RULESET := Ruleset([], [])

  /** The enum-indexed table inside a `Filters` store. */
  datatype Table = Table(gai: Ruleset, cef: Ruleset) {
    function Of(hook: FilterHook): Ruleset {
      match hook
      case GetAddrInfo => gai
      case CefUrlRequestCreate => cef
    }

    function With(hook: FilterHook, ruleset: Ruleset): Table {
      match hook
      case GetAddrInfo => this.(gai := ruleset)
      case CefUrlRequestCreate => this.(cef := ruleset)
    }
  }

  const EMPTY_TABLE := Table(EMPTY_RULESET, EMPTY_RULESET)

  predicate AnyMatch(re: Regex, patterns: seq<string>, request: string) {
    exists p :: p in patterns && re.matches(p, request)
  }

  /** `FilterRuleset::check`: true when the request may pass. */
  predicate Allows(re: Regex, ruleset: Ruleset, request: string) {
    && (ruleset.whitelist == [] || AnyMatch(re, ruleset.whitelist, request))
    && !AnyMatch(re, ruleset.blacklist, request)
  }

  /** The list compiles as a whole; an empty one always does. */
  predicate AllValid(re: Regex, patterns: seq<string>) {
    patterns == [] || re.compiles(patterns)
  }

  /** The host's filter configuration. */
  datatype Config = Config(allow: seq<string>, deny: seq<string>)

  /** The ruleset the host sends for each hook. */
  function RulesFor(cfg: Config, hook: FilterHook): Ruleset {
    match hook
    case GetAddrInfo => Ruleset(cfg.allow, [])
    case CefUrlRequestCreate => Ruleset([], cfg.deny)
  }

  /** What the configuration promises for a decoded request, said without rulesets. */
  predicate ShouldBlock(re: Regex, cfg: Config, hook: FilterHook, request: string) {
    match hook
    case GetAddrInfo => cfg.allow != [] && forall p :: p in cfg.allow ==> !re.matches(p, request)
    case CefUrlRequestCreate => exists p :: p in cfg.deny && re.matches(p, request)
  }

  lemma ConfiguredCheck(re: Regex, cfg: Config, hook: FilterHook, request: string)
    ensures ShouldBlock(re, cfg, hook, request) <==> !Allows(re, RulesFor(cfg, hook), request)
  {
  }

  /** A `Filters` store. Cloning the source's value shares this object. */
  class Filters {
    var rulesets: Table

    constructor ()
      ensures rulesets == EMPTY_TABLE
    {
      rulesets := EMPTY_TABLE;
    }

    method ReplaceRuleset(hook: FilterHook, ruleset: Ruleset)
      modifies this
      ensures rulesets.Of(hook) == ruleset
      ensures forall h :: h != hook ==> rulesets.Of(h) == old(rulesets.Of(h))
    {
      rulesets := rulesets.With(hook, ruleset);
    }

    method Check(re: Regex, hook: FilterHook, request: string) returns (pass: bool)
      ensures pass <==> Allows(re, rulesets.Of(hook), request)
      ensures forall cfg :: rulesets.Of(hook) == RulesFor(cfg, hook) ==>
        (pass <==> !ShouldBlock(re, cfg, hook, request))
    {
      pass := Allows(re, rulesets.Of(hook), request);
      forall cfg | rulesets.Of(hook) == RulesFor(cfg, hook) ensures pass <==> !ShouldBlock(re, cfg, hook, request) {
        ConfiguredCheck(re, cfg, hook, request);
      }
    }
  }
}
