# Chained home-node proxy script, modelled in Dafny

This project models `main(config)` in `temple/chain_proxy.js`, a MihomoParty override
script. The script rewrites a proxy-client configuration so that "home" (residential /
ISP) nodes dial out through a relay group of the subscription. The rewrite runs in seven
stages, each a pure function over immutable datatypes here:

1. missing `proxies`, `proxy-groups`, `rules` and `rule-providers` become empty
   (`ChainProxy.WithDefaults`);
2. the relay group is chosen: relay keywords in priority order, groups in document order
   for each keyword, the default `自动选择` when nothing matches (`Relay`);
3. every node whose name matches the home pattern gets `dialer-proxy` = relay,
   `skip-cert-verify` and `udp` set, and its name is collected (`Nodes`);
4. the chain group `🔗 链式家宽` is built: `url-test` over the home nodes, or a `select`
   over the relay when there are none (`Groups.BuildChainGroup`);
5. every other group loses the home nodes' names. Eligible `select` groups are offered
   the chain group once, at the front for AI groups and at the back otherwise
   (`Groups.CleanAndInject`);
6. the chain group is spliced in after the first "auto" group, else after the first
   "manual" group, else at the front (`Layout`);
7. five fixed rule providers are merged in, and eight fixed rules routed to the chain
   group are put first (`Rules`).

`ChainProxy.LaidOut` is the group list the script writes back. `ChainProxy.Transform`
is the whole rewrite. `Scenario` works the two-group example through every stage. It
also shows why no node may carry the chain group's name.

Modelling decisions:

- **Patterns.** The regular expressions are alternations of literal words. `Test` is
  "some alternative is a substring". Patterns with the `i` flag compare after ASCII
  lower-casing of both sides. This is exact for these patterns: every cased letter in
  them is ASCII. ECMAScript's non-Unicode case canonicalisation (section 22.2.2.7.3 of ECMA-262)
  never maps a non-ASCII character onto an ASCII one. The Chinese keywords have no case.
- **Two keyword searches.** The relay search tries keywords first (`Relay.FindRelay`).
  The anchor search, `findIndex`, tries groups first (`Layout.FindIndex`). They are two
  different functions, as in the code.
- **Group names.** A group's name is a `string`, not an option. The script throws on a
  nameless group only when line 104 or line 129 reaches it and reads
  `group.name.includes`. Line 59 guards the name, line 93 only compares it, and line 95
  skips a group without a list. A node's name is optional, as line 70 guards it.
- **Line 59's `g.name &&` guard** changes nothing for a named group: every relay keyword
  is non-empty, so an empty name never contains one. It matters only for nameless
  groups, which are not modelled.
- **Anchor search after cleaning.** The anchor search runs on the cleaned list. Cleaning
  never renames a group, so it agrees with a search over the original list
  (`Layout.InsertPosByNames`). `LaidOut` states the position in terms of the original
  groups.
- **The relay default is not a "nothing matched" flag.** A group called `自动选择`
  matches its own keyword and yields the default name as well
  (`Relay.DefaultNameCanBeFound`). The relay is therefore the default whenever nothing
  matches, but not only then.
- **No orphaned references needs a side condition.** The chain group's name contains
  `家宽`, so it matches the home pattern itself. A node with that name is collected,
  removed from every group, and then offered straight back under the same name
  (`Scenario.NodeNamedLikeChainGroup`). The no-orphans property is proved for documents
  without such a node (`ChainProxy.NoOrphanedReferences`).
- **Not idempotent.** A second run adds a second chain group and the eight rules again
  (`ChainProxy.SecondRunGrows`). Injection into one group, however, is idempotent
  (`Groups.CleanAndInjectIdempotent`).

## Model

| member | source | states |
|---|---|---|
| Strings.ContainsIffOccurs | temple/chain_proxy.js:59 | `includes` holds exactly when the keyword occurs at some index of the name |
| Strings.Contains | temple/chain_proxy.js:59 | `includes` finds a keyword only in a name at least as long as it, and always finds one the name starts with |
| Strings.Test | temple/chain_proxy.js:20 | a pattern matches a name exactly when one of its alternatives sits at some index of it, both lower-cased under the `i` flag; the flag only adds matches |
| Relay.FirstGroupWith | temple/chain_proxy.js:59 | `find` returns the first group in document order whose name contains the keyword; none when no group does |
| Relay.FindRelay | temple/chain_proxy.js:57-64 | the loop stops at the earliest keyword with any match, on the first group containing it; it finds nothing exactly when no name contains any keyword |
| Relay.ResolvesUnique | temple/chain_proxy.js:57-64 | that description admits only one (keyword, group) pair, so it determines the relay |
| Relay.RelayName | temple/chain_proxy.js:57-64 | the relay is the default when nothing matches; otherwise it is the name of the group the keyword loop stops at |
| Relay.DefaultNameCanBeFound | temple/chain_proxy.js:57-64 | a group named `自动选择` is found, yet the relay still equals the default, so the converse fails |
| Nodes.IsHome | temple/chain_proxy.js:70 | a node is a home node exactly when it has a name in which a home keyword occurs, ignoring ASCII case; such a name is never empty, so the `proxy.name &&` guard and the pattern agree on the empty name |
| Nodes.Chain | temple/chain_proxy.js:70-73 | a home node dials through the relay with certificate checks skipped and UDP on, keeping its name and other attributes |
| Nodes.RewriteNodes | temple/chain_proxy.js:69-76 | the node count is kept; home nodes are rewritten and every other node is unchanged |
| Nodes.ChainNodeNames | temple/chain_proxy.js:68-76 | the collected names are exactly the names of the home nodes |
| Nodes.ChainNodeNamesAppend | temple/chain_proxy.js:68-76 | collection distributes over concatenation, so names come out in document order |
| Nodes.ChainNodeNamesSingle | temple/chain_proxy.js:70-74 | one node contributes its name exactly when it is a home node |
| Nodes.ChainNodeNamesAfterRewrite | temple/chain_proxy.js:69-76 | the rewrite keeps the home nodes, so collecting before or after it agrees |
| Nodes.RewriteNodesIdempotent | temple/chain_proxy.js:69-76 | rewriting twice with the same relay equals rewriting once |
| Groups.BuildChainGroup | temple/chain_proxy.js:80-88 | the chain group is `url-test` over the home names when there are some, else `select` over the relay; it always carries the fixed probe |
| Groups.ChainGroupMembers | temple/chain_proxy.js:80-88 | the chain group is never empty, and each entry is the relay or the name of a home node |
| Groups.Sanitise | temple/chain_proxy.js:98 | the filter keeps exactly the entries that are not home names, each as often as before and in order |
| Groups.SanitiseClean | temple/chain_proxy.js:98 | a list without home names is left as it is |
| Groups.IsInfrastructure | temple/chain_proxy.js:104 | a group is infrastructure exactly when some relay keyword occurs, case and all, at some index of its name; the default relay name is one and the chain group's name is not |
| Groups.RelayIsInfrastructure | temple/chain_proxy.js:57-64 | the relay the keyword loop picks, or the default, is always an infrastructure group |
| Groups.RelayNotOffered | temple/chain_proxy.js:100-106 | the relay group's list is only cleaned and never gains the chain group that dials through it |
| Groups.AtFrontIgnoresCase | temple/chain_proxy.js:115 | whether an AI group gets the chain group at the front depends on its name only up to ASCII case |
| Groups.Place | temple/chain_proxy.js:115-119 | the chain group is added once, at index 0 or at the last index, with the old entries unchanged around it |
| Groups.CleanAndInject | temple/chain_proxy.js:91-125 | the chain group itself and list-less groups are untouched; otherwise the list is cleaned and, when eligible, gains the chain group once at the front for AI groups and at the back otherwise |
| Groups.NoChainedNameSurvives | temple/chain_proxy.js:96-120 | no home name is in a processed group's list, given that the chain group's name is not a home name |
| Groups.InjectionIff | temple/chain_proxy.js:100-122 | a group newly gains the chain group exactly when it is `select`, not infrastructure, not excluded and did not hold it already |
| Groups.CleanAndInjectIdempotent | temple/chain_proxy.js:109-110 | processing a group a second time changes nothing |
| Groups.CleanAndInjectAll | temple/chain_proxy.js:91-125 | the `forEach` processes every group in place and keeps every name in order |
| Groups.CleanedListsNone | temple/chain_proxy.js:91-125 | after the `forEach`, no group other than the chain group lists a home name |
| Layout.FindIndex | temple/chain_proxy.js:129 | `findIndex` gives the first group in document order whose name contains any keyword, or -1 exactly when none does |
| Layout.FindIndexByNames | temple/chain_proxy.js:129 | the search reads only the group names |
| Layout.InsertPos | temple/chain_proxy.js:135-140 | the position is one past the first auto group, else one past the first manual group, else 0 |
| Layout.InsertPosByNames | temple/chain_proxy.js:129-140 | two group lists with the same names give the same position |
| Layout.Splice | temple/chain_proxy.js:143 | the list grows by one, the new group sits at the position, and removing it gives back the old list |
| Layout.EntryAfterSplice | temple/chain_proxy.js:143 | an old entry keeps its index before the position and moves up one from it on |
| Layout.SpliceShifts | temple/chain_proxy.js:143 | earlier groups keep their place and later ones move up by exactly one |
| Rules.MergeProviders | temple/chain_proxy.js:147-187 | the keys become the old keys plus the five fixed ones; the fixed keys hold the fixed descriptors and every other key keeps its entry |
| Rules.MergeProvidersIdempotent | temple/chain_proxy.js:187 | merging twice equals merging once |
| Rules.Split | temple/chain_proxy.js:191-200 | splitting gives at least one field, no field holds the separator, and joining the fields gives back the string |
| Rules.SplitJoin | temple/chain_proxy.js:191-200 | splitting undoes joining when no field holds the separator |
| Rules.RenderParse | temple/chain_proxy.js:191-200 | a rule written as `KIND,MATCH,TARGET` reads back as its three fields |
| Rules.AiRules | temple/chain_proxy.js:191-200 | the eight template strings, `KIND,MATCH,` followed by the chain group's name, are the eight clauses rendered with commas, in order |
| Rules.AiRulesTargetChain | temple/chain_proxy.js:147-200 | each of the eight rules has three fields and targets the chain group, and every `RULE-SET` it names is a merged provider |
| Rules.PrependRules | temple/chain_proxy.js:203 | the eight fixed rules come first, followed by the old rules unchanged and in order |
| ChainProxy.WithDefaults | temple/chain_proxy.js:50-53 | present collections are kept and missing ones become empty |
| ChainProxy.LaidOut | temple/chain_proxy.js:91-143 | the list grows by one; the chain group sits where the anchor search over the original names puts it; the other entries are the cleaned groups in order |
| ChainProxy.Transform | temple/chain_proxy.js:50-205 | nodes dial through the resolved relay, groups are laid out as above, the eight rules lead the old ones, and the providers are merged |
| ChainProxy.Reload | temple/chain_proxy.js:205 | the returned document read back in is itself, with nothing defaulted |
| ChainProxy.NoOrphanedReferences | temple/chain_proxy.js:66-125 | without a node named like the chain group, no other group lists a home node's name |
| ChainProxy.GroupKeepsPlace | temple/chain_proxy.js:91-143 | every original group appears cleaned, before the insertion point at its old index and after it one further up |
| ChainProxy.GracefulDegradation | temple/chain_proxy.js:80-88 | with no home node, the spliced chain group is a `select` holding only the relay |
| ChainProxy.SecondRunGrows | temple/chain_proxy.js:143-203 | running the script on its own output adds a second chain group and eight more rules |
| Scenario.NodesClassified | temple/chain_proxy.js:20 | `Home-ISP-1` is a home node and `A` is not |
| Scenario.LayoutResolved | temple/chain_proxy.js:57-140 | with groups `手动选择` and `AI-Group`, the relay is `手动选择` and the chain group goes at index 1 |
| Scenario.ExampleAiCleaned | temple/chain_proxy.js:100-119 | `AI-Group` becomes `[🔗 链式家宽, A]` |
| Scenario.ExampleManualCleaned | temple/chain_proxy.js:104-106 | the manual selector is infrastructure and keeps `[A]` |
| Scenario.ExampleProxies | temple/chain_proxy.js:69-76 | in the example, only `Home-ISP-1` is rewritten, and it dials through `手动选择` |
| Scenario.ExampleGroupList | temple/chain_proxy.js:91-143 | the example's groups come out as manual selector, chain group, then `AI-Group` with the chain group first |
| Scenario.ManualAndAiGroup | temple/chain_proxy.js:50-205 | the whole example: nodes, groups, the eight rules and the five providers |
| Scenario.ChainNameIsHome | temple/chain_proxy.js:20-26 | the chain group's own name matches the home pattern |
| Scenario.NodeNamedLikeChainGroup | temple/chain_proxy.js:66-125 | a node named like the chain group is collected and still listed by an ordinary selector afterwards |

## Left out

- Parsing and writing the YAML configuration, and the host application calling `main`,
  are not modelled: the document arrives as datatypes.
- Fetching the rule-provider URLs is not modelled; the descriptors are constants.
- Documents with nameless groups are not modelled: a group's name is a string. The
  script accepts such a group unless line 104 or line 129 reaches it, and otherwise
  throws.
- Top-level configuration keys other than `proxies`, `proxy-groups`, `rules` and
  `rule-providers` pass through `return config` (line 205) untouched. `Input` and
  `Document` do not carry them.
- Regular expressions beyond literal alternation are left out, because the script uses
  none.
- Node attributes other than name, `dialer-proxy`, `skip-cert-verify` and `udp` are
  carried opaquely in a string map. Group fields other than name, type, list and probe
  settings are dropped, since the script never reads them.
- The key order of the `rule-providers` object is not modelled. It is a `map`, and
  `Object.assign` key order has no effect on the client.
- In-place mutation is not modelled. The script mutates `config` and returns it; the
  model returns a new document with the same contents.
- UTF-16 is not modelled. JavaScript strings are sequences of UTF-16 code units; Dafny
  strings here are sequences of Unicode scalar values. `includes`, `filter` and `===`
  agree on well-formed strings, but indices differ once a character lies outside the
  Basic Multilingual Plane. `Scenario.ChainNameIsHome` finds `家宽` at index 4 of the
  chain group's name, where JavaScript would report index 5.
- Non-string names are not modelled: node and group names are strings. JavaScript's
  coercion of numeric YAML names when matching is left out.
- The "relay-name-only" infrastructure test and the manual/auto reordering variant do
  not appear in `temple/chain_proxy.js`, so they are not part of this model.
- Idempotence of the whole transform is not claimed, because it does not hold. Only
  per-group injection is idempotent.
