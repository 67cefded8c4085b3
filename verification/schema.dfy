/** The configuration document the transform rewrites, already parsed from YAML.
    Only the attributes that steer the transform are spelt out; everything else a
    node carries is kept opaque in `other`. */
module Schema {
  import opened Wrappers

  /** A proxy node (`proxies[i]`). `dialer-proxy`, `skip-cert-verify` and `udp`
      are the attributes the transform writes. */
  datatype Node = Node(
    name: Option<string>,
    dialerProxy: Option<string>,
    skipCertVerify: Option<bool>,
    udp: Option<bool>,
    other: map<string, string>)

  /** The health-check settings of a `url-test` group: probe URL, interval and
      tolerance in seconds / milliseconds as the client reads them, and laziness. */
  datatype Probe = Probe(url: string, interval: nat, tolerance: nat, lazy: bool)

  /** A proxy group (`proxy-groups[i]`). Every group has a name: the transform
      reads `group.name` without a guard. `proxies` may be absent. */
  datatype Group = Group(
    name: string,
    kind: string,
    proxies: Option<seq<string>>,
    probe: Option<Probe>)

  /** A remote rule set (`rule-providers[key]`). */
  datatype Provider = Provider(
    kind: string,
    behavior: string,
    format: Option<string>,
    url: string,
    path: string,
    interval: nat)

  /** The document as handed to the transform: any top-level collection may be missing. */
  datatype Input = Input(
    proxies: Option<seq<Node>>,
    groups: Option<seq<Group>>,
    rules: Option<seq<string>>,
    providers: Option<map<string, Provider>>)

  /** The document once every collection exists. */
  datatype Document = Document(
    proxies: seq<Node>,
    groups: seq<Group>,
    rules: seq<string>,
    providers: map<string, Provider>)

  /** The names of a group list, in order. */
  function Names(groups: seq<Group>): (r: seq<string>)
    ensures |r| == |groups|
    ensures forall i :: 0 <= i < |groups| ==> r[i] == groups[i].name
  {
    if |groups| == 0 then [] else [groups[0].name] + Names(groups[1..])
  }
}

/** The user-editable constants at the head of the script. */
module Settings {
  import opened Strings

  /** Relay keywords, in priority order; also the "infrastructure group" test. */
  const RelayPriority: seq<string> := ["手动选择", "Hand", "节点选择", "Proxy", "代理", "自动选择", "Auto"]

  /** The relay name used when no group matches any relay keyword. */
  const DefaultRelay: string := "自动选择"

  /** Home / residential node names. */
  const HomePattern: Pattern := Pattern(["家宽", "住宅", "ISP", "Residential", "落地"], true)

  /** The name of the synthesised chain group. */
  const ChainGroupName: string := "🔗 链式家宽"

  /** Groups that get the chain group at the front of their list. */
  const AiPattern: Pattern := Pattern(["AI", "GPT", "Claude", "Gemini", "Copilot", "LLM"], true)

  /** Groups that never get the chain group. */
  const ExcludePattern: Pattern :=
    Pattern(["国内", "China", "CN", "Direct", "直连", "哔哩", "Bili", "Game", "Steam", "Download", "BT"], true)

  /** Groups that, even when AI-like, get the chain group at the back. */
  const NormalPriorityPattern: Pattern := Pattern(["hentai"], true)
}
