/** Stages 6 and 7: merging five fixed rule providers into the document and putting
    eight fixed rules, all routed to the chain group, ahead of the existing rules. */
module Rules {
  import opened Wrappers
  import opened Schema
  import opened Settings

  /** A classical YAML rule set from the Clash-Template-Config filter directory. */
  function FilterSet(name: string): Provider {
    Provider("http", "classical", Some("yaml"),
      "https://cdn.jsdelivr.net/gh/zuluion/Clash-Template-Config@master/Filter/" + name + ".yaml",
      "./rules/" + name + ".yaml", 86400)
  }

  /** A plain-text list from the ACL4SSR collection. */
  function AclList(name: string, behavior: string): Provider {
    Provider("http", behavior, None,
      "https://raw.githubusercontent.com/ACL4SSR/ACL4SSR/master/Clash/" + name + ".list",
      "./rules/" + name + ".list", 86400)
  }

  /** `fixedProviders`. */
  const FixedProviders: map<string, Provider> := map[
    "OpenAI" := FilterSet("OpenAI"),
    "Gemini" := FilterSet("Gemini"),
    "Claude" := FilterSet("Claude"),
    "ChinaDomain" := AclList("ChinaDomain", "domain"),
    "ChinaCompanyIp" := AclList("ChinaCompanyIp", "ipcidr")]

  /** `Object.assign(config['rule-providers'], fixedProviders)`: the five fixed keys
      now hold the fixed descriptors, every other key keeps its entry, and no key
      appears or disappears otherwise. */
  function MergeProviders(m: map<string, Provider>): (r: map<string, Provider>)
    ensures r.Keys == m.Keys + {"OpenAI", "Gemini", "Claude", "ChinaDomain", "ChinaCompanyIp"}
    ensures forall k :: k in FixedProviders ==> r[k] == FixedProviders[k]
    ensures forall k :: k in m && k !in FixedProviders ==> r[k] == m[k]
  {
    m + FixedProviders
  }

  /** Merging twice is merging once. */
  lemma MergeProvidersIdempotent(m: map<string, Provider>)
    ensures MergeProviders(MergeProviders(m)) == MergeProviders(m)
  {
  }

  /** A routing rule in its parsed form, `KIND,MATCH,TARGET`. */
  datatype Clause = Clause(kind: string, pattern: string, target: string)

  /** Joins fields with a separator. */
  function Join(fields: seq<string>, sep: char): (s: string)
    requires |fields| > 0
  {
    if |fields| == 1 then fields[0] else fields[0] + [sep] + Join(fields[1..], sep)
  }

  /** Splits a string at every separator, like `s.split(sep)`: the fields hold no
      separator and joining them back gives the string; the empty string gives one
      empty field. */
  function Split(s: string, sep: char): (fields: seq<string>)
    ensures |fields| > 0
    ensures forall i :: 0 <= i < |fields| ==> sep !in fields[i]
    ensures Join(fields, sep) == s
    decreases |s|
  {
    if |s| == 0 then [""]
    else if s[0] == sep then
      var t := Split(s[1..], sep);
      assert ([""] + t)[1..] == t;
      assert [s[0]] + s[1..] == s;
      [""] + t
    else
      var t := Split(s[1..], sep);
      var r := [[s[0]] + t[0]] + t[1..];
      assert r[1..] == t[1..];
      assert [s[0]] + s[1..] == s;
      r
  }

  /** A field without separators followed by a separator splits off as one field. */
  lemma {:induction false} SplitField(a: string, sep: char, b: string)
    requires sep !in a
    ensures Split(a + [sep] + b, sep) == [a] + Split(b, sep)
    decreases |a|
  {
    if |a| == 0 {
      assert a + [sep] + b == [sep] + b;
      assert ([sep] + b)[1..] == b;
    } else {
      assert (a + [sep] + b)[1..] == a[1..] + [sep] + b;
      SplitField(a[1..], sep, b);
      assert [a[0]] + a[1..] == a;
    }
  }

  /** A string without separators is a single field. */
  lemma {:induction false} SplitNoSep(a: string, sep: char)
    requires sep !in a
    ensures Split(a, sep) == [a]
    decreases |a|
  {
    if |a| > 0 {
      SplitNoSep(a[1..], sep);
      assert [a[0]] + a[1..] == a;
    }
  }

  /** Splitting undoes joining when no field holds the separator. */
  lemma {:induction false} SplitJoin(fields: seq<string>, sep: char)
    requires |fields| > 0
    requires forall i :: 0 <= i < |fields| ==> sep !in fields[i]
    ensures Split(Join(fields, sep), sep) == fields
    decreases |fields|
  {
    if |fields| == 1 {
      SplitNoSep(fields[0], sep);
    } else {
      SplitJoin(fields[1..], sep);
      SplitField(fields[0], sep, Join(fields[1..], sep));
      assert [fields[0]] + fields[1..] == fields;
    }
  }

  /** The textual form of a rule. */
  function Render(c: Clause): string {
    Join([c.kind, c.pattern, c.target], ',')
  }

  /** Reading a rendered rule back gives its three fields, when none holds a comma. */
  lemma RenderParse(c: Clause)
    requires ',' !in c.kind && ',' !in c.pattern && ',' !in c.target
    ensures Split(Render(c), ',') == [c.kind, c.pattern, c.target]
  {
    SplitJoin([c.kind, c.pattern, c.target], ',');
  }

  /** `aiRules`, before rendering: the ChatGPT desktop client, the three AI rule sets,
      and the OpenAI static domains and the probe domain, all sent to the chain group. */
  const AiClauses: seq<Clause> := [
    Clause("PROCESS-NAME", "ChatGPT.exe", ChainGroupName),
    Clause("PROCESS-NAME", "ChatGPT", ChainGroupName),
    Clause("RULE-SET", "OpenAI", ChainGroupName),
    Clause("RULE-SET", "Gemini", ChainGroupName),
    Clause("RULE-SET", "Claude", ChainGroupName),
    Clause("DOMAIN-SUFFIX", "oaistatic.com", ChainGroupName),
    Clause("DOMAIN-SUFFIX", "cdn.oaistatic.com", ChainGroupName),
    Clause("DOMAIN-SUFFIX", "gstatic.com", ChainGroupName)]

  /** `aiRules`: the eight template strings, which are the clauses above rendered in
      order. */
  function AiRules(): (rules: seq<string>)
    ensures |rules| == |AiClauses|
    ensures forall i :: 0 <= i < |AiClauses| ==> rules[i] == Render(AiClauses[i])
  {
    var rules := [
      "PROCESS-NAME,ChatGPT.exe," + ChainGroupName,
      "PROCESS-NAME,ChatGPT," + ChainGroupName,
      "RULE-SET,OpenAI," + ChainGroupName,
      "RULE-SET,Gemini," + ChainGroupName,
      "RULE-SET,Claude," + ChainGroupName,
      "DOMAIN-SUFFIX,oaistatic.com," + ChainGroupName,
      "DOMAIN-SUFFIX,cdn.oaistatic.com," + ChainGroupName,
      "DOMAIN-SUFFIX,gstatic.com," + ChainGroupName];
    ProcessTemplates();
    RuleSetTemplates();
    MixedTemplates();
    DomainTemplates();
    rules
  }

  /** The two `PROCESS-NAME` template strings are the first two clauses rendered. */
  lemma ProcessTemplates()
    ensures "PROCESS-NAME,ChatGPT.exe," + ChainGroupName == Render(AiClauses[0])
    ensures "PROCESS-NAME,ChatGPT," + ChainGroupName == Render(AiClauses[1])
  {
    Template("PROCESS-NAME", "ChatGPT.exe", "PROCESS-NAME,ChatGPT.exe,");
    Template("PROCESS-NAME", "ChatGPT", "PROCESS-NAME,ChatGPT,");
  }

  /** The first two `RULE-SET` template strings are clauses 2 and 3 rendered. */
  lemma RuleSetTemplates()
    ensures "RULE-SET,OpenAI," + ChainGroupName == Render(AiClauses[2])
    ensures "RULE-SET,Gemini," + ChainGroupName == Render(AiClauses[3])
  {
    Template("RULE-SET", "OpenAI", "RULE-SET,OpenAI,");
    Template("RULE-SET", "Gemini", "RULE-SET,Gemini,");
  }

  /** The `Claude` rule set and the first domain rule are clauses 4 and 5 rendered. */
  lemma MixedTemplates()
    ensures "RULE-SET,Claude," + ChainGroupName == Render(AiClauses[4])
    ensures "DOMAIN-SUFFIX,oaistatic.com," + ChainGroupName == Render(AiClauses[5])
  {
    Template("RULE-SET", "Claude", "RULE-SET,Claude,");
    Template("DOMAIN-SUFFIX", "oaistatic.com", "DOMAIN-SUFFIX,oaistatic.com,");
  }

  /** The last two domain template strings are clauses 6 and 7 rendered. */
  lemma DomainTemplates()
    ensures "DOMAIN-SUFFIX,cdn.oaistatic.com," + ChainGroupName == Render(AiClauses[6])
    ensures "DOMAIN-SUFFIX,gstatic.com," + ChainGroupName == Render(AiClauses[7])
  {
    Template("DOMAIN-SUFFIX", "cdn.oaistatic.com", "DOMAIN-SUFFIX,cdn.oaistatic.com,");
    Template("DOMAIN-SUFFIX", "gstatic.com", "DOMAIN-SUFFIX,gstatic.com,");
  }

  /** A rendered rule is its three fields with a comma between each. */
  lemma RenderText(c: Clause)
    ensures Render(c) == c.kind + "," + c.pattern + "," + c.target
  {
    assert Join([c.pattern, c.target], ',') == c.pattern + [','] + Join([c.target], ',');
    assert Join([c.kind, c.pattern, c.target], ',') == c.kind + [','] + Join([c.pattern, c.target], ',');
  }

  /** A template string `KIND,MATCH,${chainGroupName}` is the rendered clause. */
  lemma Template(kind: string, pattern: string, text: string)
    requires text == kind + "," + pattern + ","
    ensures text + ChainGroupName == Render(Clause(kind, pattern, ChainGroupName))
  {
    RenderText(Clause(kind, pattern, ChainGroupName));
  }

  /** The words the fixed rules are made of hold no comma. */
  lemma CommaFreeWords()
    ensures ',' !in ChainGroupName
    ensures ',' !in "PROCESS-NAME" && ',' !in "RULE-SET" && ',' !in "DOMAIN-SUFFIX"
    ensures ',' !in "ChatGPT.exe" && ',' !in "ChatGPT"
    ensures ',' !in "OpenAI" && ',' !in "Gemini" && ',' !in "Claude"
    ensures ',' !in "oaistatic.com" && ',' !in "cdn.oaistatic.com" && ',' !in "gstatic.com"
  {
  }

  /** No field of a fixed rule holds a comma. */
  lemma AiClausesCommaFree()
    ensures forall i :: 0 <= i < |AiClauses| ==>
              ',' !in AiClauses[i].kind && ',' !in AiClauses[i].pattern && ',' !in AiClauses[i].target
  {
    CommaFreeWords();
  }

  /** Every fixed rule parses back to three fields whose target is the chain group, and
      every rule set it names is one of the merged providers. */
  lemma AiRulesTargetChain()
    ensures |AiRules()| == 8
    ensures forall i :: 0 <= i < |AiRules()| ==>
              var f := Split(AiRules()[i], ',');
              |f| == 3 && f[2] == ChainGroupName
              && (f[0] == "RULE-SET" ==> f[1] in FixedProviders)
  {
    AiClausesCommaFree();
    forall i | 0 <= i < |AiClauses|
      ensures Split(AiRules()[i], ',') == [AiClauses[i].kind, AiClauses[i].pattern, ChainGroupName]
    {
      RenderParse(AiClauses[i]);
    }
    assert forall i :: 0 <= i < |AiClauses| && AiClauses[i].kind == "RULE-SET" ==> 2 <= i <= 4;
  }

  /** `config.rules = [...aiRules, ...config.rules]`: the eight fixed rules come first,
      followed by the old rules unchanged and in order. */
  function PrependRules(rules: seq<string>): (r: seq<string>)
    ensures |r| == |rules| + 8
    ensures r[..8] == AiRules() && r[8..] == rules
  {
    AiRules() + rules
  }
}
