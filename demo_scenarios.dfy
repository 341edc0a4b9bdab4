// The catalogue of demonstration questions per business domain, and the
// presentation script built from it (`DemoTestScenarios`).

module DemoScenarios {
  import opened Wrappers
  import opened Strings

  /** An opening question and the follow-ups that test conversation memory. */
  datatype FollowUpScenario = FollowUpScenario(initial: string, followUps: seq<string>)

  /** One domain's entry of the catalogue. */
  datatype DomainScenarios = DomainScenarios(
    description: string,
    easy: seq<string>,
    medium: seq<string>,
    hard: seq<string>,
    businessIntelligence: seq<string>,
    followUpScenarios: seq<FollowUpScenario>)

  /** The catalogue, keyed by domain name. */
  type Catalogue = map<string, DomainScenarios>

  /** `xs[:n]` */
  function First<T>(xs: seq<T>, n: nat): (r: seq<T>)
    ensures |r| == (if n <= |xs| then n else |xs|) && r == xs[..|r|]
  {
    if n <= |xs| then xs[..n] else xs
  }

  // ----- Lookups -----

  /** `get_domain_scenarios`: the domain's entry, or nothing (an empty
      dictionary in the program) for an unknown domain. */
  function GetDomainScenarios(scenarios: Catalogue, domain: string): (r: Option<DomainScenarios>)
    ensures r.None? <==> domain !in scenarios
    ensures r.Some? ==> r.value == scenarios[domain]
  {
    if domain in scenarios then Some(scenarios[domain]) else None
  }

  /** `get_conversation_scenarios`: the follow-up scenarios of a domain, none
      for an unknown domain. */
  function GetConversationScenarios(scenarios: Catalogue, domain: string): (r: seq<FollowUpScenario>)
    ensures domain !in scenarios ==> r == []
    ensures domain in scenarios ==> r == scenarios[domain].followUpScenarios
  {
    match GetDomainScenarios(scenarios, domain)
    case None => []
    case Some(d) => d.followUpScenarios
  }

  /** The questions of category `c` in the order easy, medium, hard,
      business intelligence. */
  function Category(d: DomainScenarios, c: nat): seq<string>
    requires c < 4
  {
    if c == 0 then d.easy else if c == 1 then d.medium else if c == 2 then d.hard else d.businessIntelligence
  }

  /** The questions of the first `c` categories, in order. */
  function Categories(d: DomainScenarios, c: nat): seq<string>
    requires c <= 4
  {
    if c == 0 then [] else Categories(d, c - 1) + Category(d, c - 1)
  }

  /** `get_all_questions_for_domain`: the four question categories one after
      the other, none for an unknown domain. */
  method GetAllQuestionsForDomain(scenarios: Catalogue, domain: string) returns (questions: seq<string>)
    ensures domain !in scenarios ==> questions == []
    ensures domain in scenarios ==>
              var d := scenarios[domain];
              && questions == d.easy + d.medium + d.hard + d.businessIntelligence
              && |questions| == |d.easy| + |d.medium| + |d.hard| + |d.businessIntelligence|
  {
    questions := [];
    var domainData := GetDomainScenarios(scenarios, domain);
    if domainData.Some? {
      var d := domainData.value;
      for c := 0 to 4
        invariant questions == Categories(d, c)
      {
        questions := questions + Category(d, c);
      }
      assert Categories(d, 2) == d.easy + d.medium;
    }
  }

  // ----- Demo script -----

  const EasyHeading: string := "### \U{1F7E2} Warm-up Questions (Easy)"
  const MediumHeading: string := "### \U{1F7E1} Core Analysis Questions (Medium)"
  const HardHeading: string := "### \U{1F534} Advanced Business Intelligence (Hard)"
  const MemoryHeading: string := "### \U{1F4AC} Conversation Memory Demo"

  /** The domains a script covers: the one asked for, or the three built-in
      domains when none (or an empty name) is given. */
  function ScriptDomains(domain: Option<string>): (domains: seq<string>)
    ensures |domains| >= 1
  {
    if domain.Some? && domain.value != "" then [domain.value] else ["banking", "hospital", "marketing"]
  }

  /** The four lines that open every script. */
  function Header(generatedOn: string): seq<string> {
    ["# AI Data Analytics Tool - Demo Script", Repeat('=', 50), "Generated on: " + generatedOn, ""]
  }

  /** Questions as a list numbered from 1. */
  function Numbered(questions: seq<string>): (lines: seq<string>)
    ensures |lines| == |questions|
  {
    seq(|questions|, i requires 0 <= i < |questions| => NatToString(i + 1) + ". " + questions[i])
  }

  /** The follow-ups of a scenario as a bulleted list. */
  function Bullets(followUps: seq<string>): (lines: seq<string>)
    ensures |lines| == |followUps|
  {
    seq(|followUps|, j requires 0 <= j < |followUps| => "  - " + followUps[j])
  }

  /** The lines for a list of conversation scenarios. */
  function Conversations(scenarios: seq<FollowUpScenario>): seq<string> {
    if scenarios == [] then []
    else
      var last := scenarios[|scenarios| - 1];
      Conversations(scenarios[..|scenarios| - 1])
        + ["**Start with**: " + last.initial, "**Then ask**:"] + Bullets(last.followUps)
  }

  /** The four lines that open a domain's section. */
  function Intro(domain: string, d: DomainScenarios): seq<string> {
    ["## " + Upper(domain) + " DOMAIN DEMO", Repeat('-', 30), "**Context**: " + d.description, ""]
  }

  /** A heading, its lines and a blank line. */
  function Block(heading: string, lines: seq<string>): seq<string> {
    [heading] + lines + [""]
  }

  /** The section of one domain: heading, context, at most three easy, four
      medium and two hard questions, and the first conversation scenario. */
  function Section(domain: string, d: DomainScenarios): seq<string> {
    Intro(domain, d)
      + Block(EasyHeading, Numbered(First(d.easy, 3)))
      + Block(MediumHeading, Numbered(First(d.medium, 4)))
      + Block(HardHeading, Numbered(First(d.hard, 2)))
      + Block(MemoryHeading, Conversations(First(d.followUpScenarios, 1)))
  }

  /** The sections of `domains` in order; the first domain missing from the
      catalogue raises a `KeyError`. */
  function Sections(scenarios: Catalogue, domains: seq<string>): Result<seq<string>> {
    if domains == [] then Success([])
    else
      var last := domains[|domains| - 1];
      match Sections(scenarios, domains[..|domains| - 1])
      case Failure(e) => Failure(e)
      case Success(lines) =>
        if last in scenarios then Success(lines + Section(last, scenarios[last]))
        else Failure("KeyError: '" + last + "'")
  }

  /** The script, its lines joined by newlines. */
  function DemoScript(scenarios: Catalogue, domain: Option<string>, generatedOn: string): Result<string> {
    match Sections(scenarios, ScriptDomains(domain))
    case Failure(e) => Failure(e)
    case Success(lines) => Success(Join(Header(generatedOn) + lines, "\n"))
  }

  lemma {:induction false} SectionsStep(scenarios: Catalogue, domains: seq<string>, i: int)
    requires 0 <= i < |domains|
    ensures Sections(scenarios, domains[..i + 1]) ==
              match Sections(scenarios, domains[..i])
              case Failure(e) => Failure(e)
              case Success(lines) =>
                if domains[i] in scenarios then Success(lines + Section(domains[i], scenarios[domains[i]]))
                else Failure("KeyError: '" + domains[i] + "'")
  {
    assert domains[..i + 1][..i] == domains[..i];
  }

  /** Once a prefix of the domains raises, so does the whole script, with
      the same error. */
  lemma {:induction false} SectionsFailurePersists(scenarios: Catalogue, domains: seq<string>, i: int)
    requires 0 <= i <= |domains|
    requires Sections(scenarios, domains[..i]).Failure?
    ensures Sections(scenarios, domains) == Sections(scenarios, domains[..i])
    decreases |domains| - i
  {
    if i < |domains| {
      SectionsStep(scenarios, domains, i);
      SectionsFailurePersists(scenarios, domains, i + 1);
    } else {
      assert domains[..i] == domains;
    }
  }

  /** The sections are produced exactly when every domain is in the
      catalogue, and are then the domains' sections one after the other. */
  lemma {:induction false} SectionsSucceed(scenarios: Catalogue, domains: seq<string>)
    ensures Sections(scenarios, domains).Success? <==> forall k :: 0 <= k < |domains| ==> domains[k] in scenarios
  {
    if domains != [] {
      var init := domains[..|domains| - 1];
      SectionsSucceed(scenarios, init);
      assert forall k :: 0 <= k < |init| ==> init[k] == domains[k];
    }
  }

  /** Without a domain the script covers banking, hospital and marketing in
      that order; a single unknown domain raises. */
  lemma DemoScriptDefault(scenarios: Catalogue, generatedOn: string)
    requires "banking" in scenarios && "hospital" in scenarios && "marketing" in scenarios
    ensures DemoScript(scenarios, None, generatedOn)
              == Success(Join(Header(generatedOn) + Section("banking", scenarios["banking"])
                              + Section("hospital", scenarios["hospital"])
                              + Section("marketing", scenarios["marketing"]), "\n"))
  {
    var ds := ScriptDomains(None);
    var s1, s2, s3 := Section("banking", scenarios["banking"]), Section("hospital", scenarios["hospital"]),
                      Section("marketing", scenarios["marketing"]);
    assert ds[..0] == [];
    SectionsStep(scenarios, ds, 0);
    assert [] + s1 == s1;
    SectionsStep(scenarios, ds, 1);
    SectionsStep(scenarios, ds, 2);
    assert ds[..3] == ds;
    assert Sections(scenarios, ds) == Success(s1 + s2 + s3);
    Assoc(Header(generatedOn), s1, s2);
    Assoc(Header(generatedOn), s1 + s2, s3);
    Assoc(Header(generatedOn) + s1, s2, s3);
  }

  /** A script asked for one domain missing from the catalogue raises. */
  lemma DemoScriptUnknown(scenarios: Catalogue, domain: string, generatedOn: string)
    requires domain != "" && domain !in scenarios
    ensures DemoScript(scenarios, Some(domain), generatedOn) == Failure("KeyError: '" + domain + "'")
  {
    var ds := ScriptDomains(Some(domain));
    assert ds[..0] == [];
    SectionsStep(scenarios, ds, 0);
    assert ds[..1] == ds;
  }

  /** A section lists at most three easy, four medium and two hard
      questions, and of the conversation scenarios only the first. */
  lemma SectionShape(domain: string, d: DomainScenarios)
    ensures Conversations(First(d.followUpScenarios, 1))
              == if d.followUpScenarios == [] then []
                 else ["**Start with**: " + d.followUpScenarios[0].initial, "**Then ask**:"]
                      + Bullets(d.followUpScenarios[0].followUps)
    ensures |Section(domain, d)|
              == 12 + Min(3, |d.easy|) + Min(4, |d.medium|) + Min(2, |d.hard|)
                 + (if d.followUpScenarios == [] then 0 else 2 + |d.followUpScenarios[0].followUps|)
  {
    var fs := First(d.followUpScenarios, 1);
    if fs != [] {
      assert fs[..0] == [];
    }
  }

  function Min(a: int, b: int): int { if a <= b then a else b }

  /** Appends the numbered first `limit` questions. */
  method AppendNumbered(script: seq<string>, questions: seq<string>, limit: nat) returns (r: seq<string>)
    ensures r == script + Numbered(First(questions, limit))
  {
    var chosen := First(questions, limit);
    r := script;
    for i := 0 to |chosen|
      invariant r == script + Numbered(chosen[..i])
    {
      assert Numbered(chosen[..i + 1]) == Numbered(chosen[..i]) + [NatToString(i + 1) + ". " + chosen[i]];
      r := r + [NatToString(i + 1) + ". " + chosen[i]];
    }
    assert chosen[..|chosen|] == chosen;
  }

  /** Appends the bulleted follow-ups. */
  method AppendBullets(script: seq<string>, followUps: seq<string>) returns (r: seq<string>)
    ensures r == script + Bullets(followUps)
  {
    r := script;
    for j := 0 to |followUps|
      invariant r == script + Bullets(followUps[..j])
    {
      assert Bullets(followUps[..j + 1]) == Bullets(followUps[..j]) + ["  - " + followUps[j]];
      r := r + ["  - " + followUps[j]];
    }
    assert followUps[..|followUps|] == followUps;
  }

  /** Appends the first conversation scenario. */
  method AppendConversations(script: seq<string>, followUpScenarios: seq<FollowUpScenario>) returns (r: seq<string>)
    ensures r == script + Conversations(First(followUpScenarios, 1))
  {
    var chosen := First(followUpScenarios, 1);
    r := script;
    for k := 0 to |chosen|
      invariant r == script + Conversations(chosen[..k])
    {
      var scenario := chosen[k];
      assert chosen[..k + 1][..k] == chosen[..k];
      r := r + ["**Start with**: " + scenario.initial, "**Then ask**:"];
      r := AppendBullets(r, scenario.followUps);
    }
    assert chosen[..|chosen|] == chosen;
  }

  /** Appends a heading, the numbered first `limit` questions and a blank line. */
  method AppendQuestions(script: seq<string>, heading: string, questions: seq<string>, limit: nat) returns (r: seq<string>)
    ensures r == script + Block(heading, Numbered(First(questions, limit)))
  {
    r := script + [heading];
    r := AppendNumbered(r, questions, limit);
    r := r + [""];
  }

  /** Appends the conversation heading, the first scenario and a blank line. */
  method AppendMemory(script: seq<string>, followUpScenarios: seq<FollowUpScenario>) returns (r: seq<string>)
    ensures r == script + Block(MemoryHeading, Conversations(First(followUpScenarios, 1)))
  {
    r := script + [MemoryHeading];
    r := AppendConversations(r, followUpScenarios);
    r := r + [""];
  }

  lemma Assoc<T>(a: seq<T>, b: seq<T>, c: seq<T>)
    ensures a + b + c == a + (b + c)
  {
  }

  lemma Regroup<T>(s: seq<T>, a: seq<T>, b: seq<T>, c: seq<T>, d: seq<T>, e: seq<T>)
    ensures s + a + b + c + d + e == s + (a + b + c + d + e)
  {
  }

  /** Appends the section of one domain. */
  method AppendSection(script: seq<string>, domain: string, d: DomainScenarios) returns (r: seq<string>)
    ensures r == script + Section(domain, d)
  {
    var intro := Intro(domain, d);
    r := script + ["## " + Upper(domain) + " DOMAIN DEMO", Repeat('-', 30), "**Context**: " + d.description, ""];
    assert r == script + intro;
    var r1 := AppendQuestions(r, EasyHeading, d.easy, 3);
    var r2 := AppendQuestions(r1, MediumHeading, d.medium, 4);
    var r3 := AppendQuestions(r2, HardHeading, d.hard, 2);
    r := AppendMemory(r3, d.followUpScenarios);
    Regroup(script, intro, Block(EasyHeading, Numbered(First(d.easy, 3))),
            Block(MediumHeading, Numbered(First(d.medium, 4))), Block(HardHeading, Numbered(First(d.hard, 2))),
            Block(MemoryHeading, Conversations(First(d.followUpScenarios, 1))));
  }

  /** `generate_demo_script`; the time stamp is a parameter. */
  method GenerateDemoScript(scenarios: Catalogue, domain: Option<string>, generatedOn: string) returns (r: Result<string>)
    ensures r == DemoScript(scenarios, domain, generatedOn)
  {
    var domains := ScriptDomains(domain);
    var script := Header(generatedOn);
    for i := 0 to |domains|
      invariant Sections(scenarios, domains[..i]).Success?
      invariant script == Header(generatedOn) + Sections(scenarios, domains[..i]).value
    {
      SectionsStep(scenarios, domains, i);
      if domains[i] !in scenarios {
        SectionsFailurePersists(scenarios, domains, i + 1);
        return Failure("KeyError: '" + domains[i] + "'");
      }
      ghost var before := Sections(scenarios, domains[..i]).value;
      script := AppendSection(script, domains[i], scenarios[domains[i]]);
      Assoc(Header(generatedOn), before, Section(domains[i], scenarios[domains[i]]));
    }
    assert domains[..|domains|] == domains;
    r := Success(Join(script, "\n"));
  }
}
