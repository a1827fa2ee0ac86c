/** `call_sap_ai_core_agent` in multi_agent_orchestrator_aws.py: a simulated SAP AI Core answer.
    The random draws of the simulation are inputs; what is modelled is how the answer is
    assembled from them, above all the eligibility summary: the programs whose flag is true, in
    the order of the eligibility map, their count, and the restriction a "fair" payment
    standing adds. */
module SapAgent {
  import opened Py

  /** The simulator's random draws that reach the modelled part of its answer. */
  datatype SapDraws = SapDraws(energyEfficiencyRebate: bool, smartThermostatProgram: bool,
                               solarIncentiveProgram: bool, paymentStanding: string, accountAgeMonths: int)

  /** The eligibility map, in its fixed key order; the last two programs are never offered. */
  function ProgramEligibility(d: SapDraws): (elig: seq<(string, bool)>)
    ensures |elig| == 5
  {
    [("energy_efficiency_rebate", d.energyEfficiencyRebate),
     ("smart_thermostat_program", d.smartThermostatProgram),
     ("solar_incentive_program", d.solarIncentiveProgram),
     ("low_income_assistance", false),
     ("commercial_upgrade_program", false)]
  }

  /** `[k for k, v in program_eligibility.items() if v]` */
  function EligiblePrograms(elig: seq<(string, bool)>): (ks: seq<string>)
    ensures |ks| <= |elig|
  {
    if elig == [] then []
    else (if elig[0].1 then [elig[0].0] else []) + EligiblePrograms(elig[1..])
  }

  /** A program is recommended exactly when its flag is true. */
  lemma {:induction false} EligibleProgramsMembers(elig: seq<(string, bool)>, k: string)
    ensures k in EligiblePrograms(elig) <==> (k, true) in elig
  {
    if elig != [] {
      EligibleProgramsMembers(elig[1..], k);
      assert elig == [elig[0]] + elig[1..];
    }
  }

  /** The recommended programs keep the map's order: the selection of two consecutive parts
      of the map is the selection of the first followed by that of the second. */
  lemma {:induction false} EligibleProgramsOrder(a: seq<(string, bool)>, b: seq<(string, bool)>)
    ensures EligiblePrograms(a + b) == EligiblePrograms(a) + EligiblePrograms(b)
  {
    if a == [] {
      assert a + b == b;
    } else {
      assert (a + b)[1..] == a[1..] + b;
      EligibleProgramsOrder(a[1..], b);
    }
  }

  const Restriction: string := "Some programs may require deposit or payment plan"

  /** The eligibility summary after the simulator fills it in: its entries keep the order of
      the initial `{total_programs_eligible, recommended_programs, restrictions}`.  It counts
      the programs it recommends, and carries a restriction exactly when the payment standing
      is "fair". */
  function EligibilitySummary(elig: seq<(string, bool)>, paymentStanding: string): (s: Json)
    ensures s.JObject? && |s.fields| == 3
    ensures s.fields[1].0 == "recommended_programs" && s.fields[1].1.JList?
    ensures |s.fields[1].1.items| == |EligiblePrograms(elig)|
    ensures forall i :: 0 <= i < |s.fields[1].1.items| ==> s.fields[1].1.items[i] == JStr(EligiblePrograms(elig)[i])
    ensures s.fields[0] == ("total_programs_eligible", JInt(|s.fields[1].1.items|))
    ensures s.fields[2].0 == "restrictions" && s.fields[2].1.JList?
    ensures s.fields[2].1.items != [] <==> paymentStanding == "fair"
  {
    var programs := EligiblePrograms(elig);
    JObject([("total_programs_eligible", JInt(|programs|)),
             ("recommended_programs", JList(seq(|programs|, i requires 0 <= i < |programs| => JStr(programs[i])))),
             ("restrictions", if paymentStanding == "fair" then JList([JStr(Restriction)]) else JList([]))])
  }

  /** Of the five programs only the first three can be recommended, so at most three are. */
  lemma OnlyDrawnPrograms(d: SapDraws)
    ensures EligiblePrograms(ProgramEligibility(d)) ==
      (if d.energyEfficiencyRebate then ["energy_efficiency_rebate"] else [])
      + (if d.smartThermostatProgram then ["smart_thermostat_program"] else [])
      + (if d.solarIncentiveProgram then ["solar_incentive_program"] else [])
    ensures |EligiblePrograms(ProgramEligibility(d))| <= 3
  {
    var e := ProgramEligibility(d);
    assert e == e[..3] + e[3..];
    EligibleProgramsOrder(e[..3], e[3..]);
    assert e[..3] == [e[0]] + [e[1]] + [e[2]];
    EligibleProgramsOrder([e[0]] + [e[1]], [e[2]]);
    EligibleProgramsOrder([e[0]], [e[1]]);
    assert e[3..][1..][1..] == [];
  }

  /** `customer_id[:8].upper()`: a str gives its first eight characters upper-cased; a list
      slices but has no `upper`; a dict cannot be sliced; the rest are not subscriptable. */
  function SliceUpper(customerId: Json): (r: Outcome<string>)
    ensures r.Value? <==> customerId.JStr?
    ensures customerId.JStr? ==> r == Value(Upper(Take(customerId.s, 8)))
  {
    match customerId
    case JStr(s) => Value(Upper(Take(s, 8)))
    case JList(_) => Raised("'list' object has no attribute 'upper'")
    case JObject(_) => Raised("unhashable type: 'slice'")
    case _ => Raised("'" + TypeName(customerId) + "' object is not subscriptable")
  }

  /** `account_number` */
  function AccountNumber(customerId: Json): Outcome<string> {
    match SliceUpper(customerId)
    case Raised(e) => Raised(e)
    case Value(s) => Value("SAP-" + s)
  }

  /** The account number is "SAP-" and then at most eight upper-cased characters of the id:
      the id itself, upper-cased, when it is that short, otherwise its first eight. */
  lemma AccountNumberSpec(customerId: string)
    ensures var n := AccountNumber(JStr(customerId));
      && n.Value?
      && |n.value| == 4 + (if |customerId| < 8 then |customerId| else 8)
      && n.value[..4] == "SAP-"
      && (forall i :: 4 <= i < |n.value| ==> n.value[i] == UpperChar(customerId[i - 4]))
  {
    var n := AccountNumber(JStr(customerId)).value;
    var t := Take(customerId, 8);
    assert n == "SAP-" + Upper(t);
    forall i | 4 <= i < |n|
      ensures n[i] == UpperChar(customerId[i - 4])
    {
      assert n[i] == Upper(t)[i - 4];
      assert t[i - 4] == customerId[i - 4];
    }
  }

  /** The answer for a str customer id: the id, the account status, the eligibility map and
      its summary, in that order. */
  function SapRecord(customerId: Json, accountNumber: string, d: SapDraws): (r: Json)
    ensures r.JObject? && |r.fields| == 4
  {
    var elig := ProgramEligibility(d);
    JObject([
      ("customer_id", customerId),
      ("account_status", AccountStatus(accountNumber, d)),
      ("program_eligibility", JObject(seq(|elig|, i requires 0 <= i < |elig| => (elig[i].0, JBool(elig[i].1))))),
      ("eligibility_summary", EligibilitySummary(elig, d.paymentStanding))])
  }

  function AccountStatus(accountNumber: string, d: SapDraws): Json {
    JObject([("account_number", JStr(accountNumber)),
             ("account_type", JStr("residential")),
             ("status", JStr("active")),
             ("payment_standing", JStr(d.paymentStanding)),
             ("account_age_months", JInt(d.accountAgeMonths))])
  }

  /** An answer built from the draws is never an error dict. */
  lemma SapRecordNotError(customerId: Json, accountNumber: string, d: SapDraws)
    ensures !IsError(SapRecord(customerId, accountNumber, d))
  {
    var r := SapRecord(customerId, accountNumber, d);
    assert r.fields[0].0 == "customer_id" && r.fields[1].0 == "account_status";
    NoErrorKey(r.fields);
  }

  /** Its eligibility summary is the one of the draws. */
  lemma SapRecordSummary(customerId: Json, accountNumber: string, d: SapDraws)
    ensures Lookup(SapRecord(customerId, accountNumber, d).fields, "eligibility_summary")
      == Some(EligibilitySummary(ProgramEligibility(d), d.paymentStanding))
  {
    var r := SapRecord(customerId, accountNumber, d);
    assert r.fields[3] == ("eligibility_summary", EligibilitySummary(ProgramEligibility(d), d.paymentStanding));
    LookupAt(r.fields, 3);
  }

  /** Its account status carries the account number. */
  lemma SapRecordAccount(customerId: Json, accountNumber: string, d: SapDraws)
    ensures Lookup(SapRecord(customerId, accountNumber, d).fields, "account_status") == Some(AccountStatus(accountNumber, d))
    ensures Lookup(AccountStatus(accountNumber, d).fields, "account_number") == Some(JStr(accountNumber))
  {
    var r := SapRecord(customerId, accountNumber, d);
    assert r.fields[1] == ("account_status", AccountStatus(accountNumber, d));
    LookupAt(r.fields, 1);
  }

  const SapFailure: string := "Failed to call SAP AI Core agent: "

  /** The answer `call_sap_ai_core_agent` returns for an enrichment request (the
      orchestration result; the request id, billing, consumption, contract and service data,
      random or floating-point, are not part of the model).  Building the account number is
      the one step that can raise. */
  function CallSapAiCoreAgent(enrichment: seq<(string, Json)>, d: SapDraws): (r: Json)
    ensures r.JObject?
  {
    var customerId := LookupOr(enrichment, "customer_id", JStr(""));
    match AccountNumber(customerId)
    case Raised(e) => ErrorObj(SapFailure + e)
    case Value(accountNumber) => SapRecord(customerId, accountNumber, d)
  }

  /** With a str customer id the answer carries the account status and the eligibility
      summary of the draws; with any other id it is an error dict. */
  lemma SapAnswer(enrichment: seq<(string, Json)>, d: SapDraws)
    ensures var customerId := LookupOr(enrichment, "customer_id", JStr(""));
      var r := CallSapAiCoreAgent(enrichment, d);
      && (IsError(r) <==> !customerId.JStr?)
      && (customerId.JStr? ==>
            && Lookup(r.fields, "eligibility_summary") == Some(EligibilitySummary(ProgramEligibility(d), d.paymentStanding))
            && Lookup(r.fields, "account_status").Some?
            && Lookup(r.fields, "account_status").value.JObject?
            && Lookup(Lookup(r.fields, "account_status").value.fields, "account_number")
                 == Some(JStr(AccountNumber(customerId).value)))
  {
    var customerId := LookupOr(enrichment, "customer_id", JStr(""));
    if customerId.JStr? {
      var n := AccountNumber(customerId).value;
      SapRecordNotError(customerId, n, d);
      SapRecordSummary(customerId, n, d);
      SapRecordAccount(customerId, n, d);
    }
  }
}
