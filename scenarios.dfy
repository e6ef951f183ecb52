/**
  The static catalog of scripted scenarios, its lookup and its listing, and
  the shape every script in it has.
 */
module Scenarios {
  import opened Wrappers
  import opened Models

  /** The text of every "user" line. */
  const UserPlaceholder := "[User response expected]"

  function ScammerLine(turn: int, text: string): ScenarioLine {
    ScenarioLine(turn, "scammer", text, None)
  }

  function UserLine(turn: int): ScenarioLine {
    ScenarioLine(turn, "user", UserPlaceholder)
  }

  const BankFraud := Scenario(
    "bank_fraud",
    "Bank Fraud Department",
    "Scammer pretends to be from the bank's " + "fraud department warning about " + "suspicious activity",
    "medium",
    [ ScammerLine(1,
        "Hello, this is " + "David from the " + "fraud " + "department at " +
        "your bank. " + "We've detected " + "some suspicious " + "activity on " +
        "your account " + "ending in 4567. " + "Are you " + "available to " +
        "verify some " + "information?"),
      UserLine(2),
      ScammerLine(3,
        "We're showing a " + "charge of " + "$2,500 " + "attempting to " +
        "process from an " + "online retailer " + "in California. " + "Did you " +
        "authorize this " + "transaction?"),
      UserLine(4),
      ScammerLine(5,
        "I understand. " + "For security " + "purposes, I " + "need to verify " +
        "your identity. " + "Can you please " + "confirm the " + "full account " +
        "number on the " + "card?"),
      UserLine(6),
      ScammerLine(7,
        "Thank you. I'm " + "sending a " + "verification " + "code to your " +
        "phone right " + "now. When you " + "receive it, " + "please read me " +
        "that 6-digit " + "code so I can " + "cancel this " + "fraudulent " +
        "transaction " + "immediately."),
      UserLine(8),
      ScammerLine(9,
        "Perfect. Your " + "account is now " + "secured and the " + "fraudulent " +
        "charge has been " + "blocked. You " + "should see a " + "confirmation " +
        "email within 24 " + "hours. Is there " + "anything else I " + "can help you " +
        "with today?"),
      UserLine(10),
      ScammerLine(11,
        "Thank you for " + "your time. Have " + "a great day and " + "remember to " +
        "monitor your " + "account " + "regularly.")
    ])

  const TechSupport := Scenario(
    "tech_support",
    "Tech Support Scam",
    "Scammer claims to be from Microsoft " + "warning about a virus on the computer",
    "easy",
    [ ScammerLine(1,
        "Hello, this is " + "Michael from " + "Microsoft " + "Technical " +
        "Support. We've " + "detected " + "malicious " + "software on " +
        "your computer " + "that's sending " + "your personal " + "data to " +
        "hackers. Is " + "this a good " + "time to help " + "you remove it?"),
      UserLine(2),
      ScammerLine(3,
        "I need you to " + "go to your " + "computer right " + "now. Can you " +
        "tell me what " + "you see on your " + "screen? Are " + "there any error " +
        "messages or " + "pop-ups?"),
      UserLine(4),
      ScammerLine(5,
        "Okay, I'm going " + "to give you a " + "website to " + "visit so I can " +
        "remote into " + "your computer " + "and remove the " + "virus. Please " +
        "write this " + "down: " + "support-dot-microsoft-dash-secure.com. " +
        "Can you open " + "that in your " + "browser?"),
      UserLine(6),
      ScammerLine(7,
        "Great. Now you " + "should see a " + "download " + "button. Click " +
        "that and tell " + "me the 6-digit " + "access code " + "that appears on " +
        "your screen."),
      UserLine(8),
      ScammerLine(9,
        "Perfect. I'm " + "connecting now " + "to scan your " + "system. This " +
        "will take about " + "30 seconds.")
    ])

  const IrsTax := Scenario(
    "irs_tax",
    "IRS Tax Warrant",
    "Scammer impersonates IRS agent " + "threatening arrest for unpaid taxes",
    "hard",
    [ ScammerLine(1,
        "This is Officer " + "Jenkins from " + "the Internal " + "Revenue " +
        "Service. We " + "have issued a " + "warrant for " + "your arrest due " +
        "to unpaid taxes " + "from 2022 and " + "2023 totaling " + "$8,450. This is " +
        "your final " + "notice before " + "we dispatch " + "local law " +
        "enforcement. Do " + "you understand " + "the severity of " + "this situation?"),
      UserLine(2),
      ScammerLine(3,
        "You can avoid " + "arrest if you " + "settle this " + "debt " +
        "immediately. " + "I'm authorized " + "to accept " + "payment over " +
        "the phone right " + "now. Do you " + "have access to " + "your bank " +
        "account or a " + "credit card?"),
      UserLine(4),
      ScammerLine(5,
        "Time is " + "critical here. " + "I can only hold " + "this warrant " +
        "for the next 15 " + "minutes. Please " + "provide your " + "social security " +
        "number so I can " + "verify your " + "identity and " + "process the " +
        "payment to " + "clear this " + "warrant."),
      UserLine(6),
      ScammerLine(7,
        "I need the " + "payment " + "immediately. " + "You can pay " + "using gift " +
        "cards from any " + "major retailer. " + "Purchase $8,450 " + "in iTunes or " +
        "Google Play " + "cards and read " + "me the codes. " + "This is the " +
        "only way to " + "stop the arrest " + "warrant.")
    ])

  const AdithVenkatesh := Scenario(
    "adith_venkatesh",
    "adith ven",
    "Scammer pretends to be a friend asking " + "for money",
    "easy",
    [ ScammerLine(1,
        "Yo adi please " + "fade the date " + "and come to " + "work on the " +
        "hackathon with " + "USSSSSS, PLease " + "bro we need you " +
        "also isn't this " + "hella cool " + "after say youre " + "respose so we " +
        "can store it in " + "a json"),
      UserLine(2)
    ])

  /** `SCENARIOS`, as (key, entry) pairs in the dictionary's insertion order. */
  const Catalog: seq<(string, Scenario)> := [
    ("bank_fraud", BankFraud),
    ("tech_support", TechSupport),
    ("irs_tax", IrsTax),
    ("adith_venkatesh", AdithVenkatesh)
  ]

  const CatalogKeys: set<string> := {"bank_fraud", "tech_support", "irs_tax", "adith_venkatesh"}

  /** `list_scenarios()`: the entries, in table order. */
  function ListScenarios(): (r: seq<Scenario>)
    ensures |r| == |Catalog|
    ensures forall k | 0 <= k < |Catalog| :: r[k] == Catalog[k].1
  {
    [BankFraud, TechSupport, IrsTax, AdithVenkatesh]
  }

  /**
    `get_scenario(id)`: fails (the source raises ValueError) exactly when `id`
    is not a key, and otherwise returns a listed entry whose id is `id`.
   */
  function GetScenario(id: string): (r: Result<Scenario, string>)
    ensures r.Failure? <==> id !in CatalogKeys
    ensures r.Failure? ==> r.error == "Scenario '" + id + "' not found"
    ensures r.Success? ==> r.value.id == id && r.value in ListScenarios()
  {
    LookupCatalog(id);
    match Lookup(Catalog, id)
    case None => Failure("Scenario '" + id + "' not found")
    case Some(s) => Success(s)
  }

  /** The lookup in the catalog, key by key. */
  lemma LookupCatalog(id: string)
    ensures Lookup(Catalog, id) ==
      if id == "bank_fraud" then Some(BankFraud)
      else if id == "tech_support" then Some(TechSupport)
      else if id == "irs_tax" then Some(IrsTax)
      else if id == "adith_venkatesh" then Some(AdithVenkatesh)
      else None
  {
    var c := Catalog;
    assert c[0].0 == "bank_fraud" && c[1].0 == "tech_support" && c[2].0 == "irs_tax" && c[3].0 == "adith_venkatesh";
    assert c[1..][1..][1..][1..] == [];
  }

  /** `list_scenarios()` gives the four entries in table order. */
  lemma ListScenariosOrder()
    ensures |ListScenarios()| == 4
    ensures ListScenarios()[0].id == "bank_fraud"
    ensures ListScenarios()[1].id == "tech_support"
    ensures ListScenarios()[2].id == "irs_tax"
    ensures ListScenarios()[3].id == "adith_venkatesh"
  {
  }

  /**
    The shape of a script: turns are exactly 1..n in order; odd turns are
    "scammer" lines and even turns "user" lines; every user line holds the
    placeholder and no line carries an audio URL.
   */
  predicate WellFormedScript(s: Scenario) {
    |s.lines| > 0 && forall k | 0 <= k < |s.lines| :: LineShape(s.lines[k], k)
  }

  /** The line at index `k` of a well-formed script. */
  predicate LineShape(line: ScenarioLine, k: int) {
    && line.turn == k + 1
    && line.speaker == (if k % 2 == 0 then "scammer" else "user")
    && (line.speaker == "user" ==> line.text == UserPlaceholder)
    && line.audioUrl == None
  }

  /** Scammer lines at even indices and user lines at odd ones, each with its own turn, make a well-formed script. */
  lemma AlternatingWellFormed(s: Scenario)
    requires |s.lines| > 0
    requires forall k | 0 <= k < |s.lines| ::
      s.lines[k] == if k % 2 == 0 then ScammerLine(k + 1, s.lines[k].text) else UserLine(k + 1)
    ensures WellFormedScript(s)
  {
  }

  lemma BankFraudWellFormed() ensures WellFormedScript(BankFraud) {
    AlternatingWellFormed(BankFraud);
  }
  lemma TechSupportWellFormed() ensures WellFormedScript(TechSupport) {
    AlternatingWellFormed(TechSupport);
  }
  lemma IrsTaxWellFormed() ensures WellFormedScript(IrsTax) {
    AlternatingWellFormed(IrsTax);
  }
  lemma AdithVenkateshWellFormed() ensures WellFormedScript(AdithVenkatesh) {
    AlternatingWellFormed(AdithVenkatesh);
  }

  /** Every script of the catalog is well formed. */
  lemma CatalogWellFormed()
    ensures forall s | s in ListScenarios() :: WellFormedScript(s)
  {
    BankFraudWellFormed();
    TechSupportWellFormed();
    IrsTaxWellFormed();
    AdithVenkateshWellFormed();
  }

  /** Where each script ends: three on a scammer line, adith_venkatesh on user turn 2. */
  lemma CatalogEndings()
    ensures var l := BankFraud.lines; l[|l| - 1].turn == 11 && l[|l| - 1].speaker == "scammer"
    ensures var l := TechSupport.lines; l[|l| - 1].turn == 9 && l[|l| - 1].speaker == "scammer"
    ensures var l := IrsTax.lines; l[|l| - 1].turn == 7 && l[|l| - 1].speaker == "scammer"
    ensures var l := AdithVenkatesh.lines; l[|l| - 1].turn == 2 && l[|l| - 1].speaker == "user"
  {
  }
}
