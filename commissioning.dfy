/**
 * Commissioning gating (commissioning.js): each device family has a fixed
 * template of five tests, some required; a device may be activated when its
 * passed results cover the required tests.  Test outcomes come from
 * `Math.random` in the source and are inputs here.
 */
module Commissioning {

  import opened Common
  import opened Strings

  datatype TestSpec = TestSpec(id: string, name: string, required: bool)

  /** The four templates, keyed as in the source's `templates` object. */
  function TemplateFor(key: string): Option<seq<TestSpec>>
  {
    if key == "inverter" then Some(InverterTemplate())
    else if key == "bms" then Some(BmsTemplate())
    else if key == "breakers" then Some(BreakersTemplate())
    else if key == "analyzers" then Some(AnalyzersTemplate())
    else None
  }

  function InverterTemplate(): (t: seq<TestSpec>)
    ensures |t| == 5 && DistinctIds(t)
  {
    [ TestSpec("conn", "Bağlantı testi", true),
      TestSpec("sunspec", "SunSpec model okuma", true),
      TestSpec("acdc", "AC/DC ölçüm doğrulama", true),
      TestSpec("plimit", "P-limit testi (dry-run)", false),
      TestSpec("phase", "Faz sırası kontrolü", true) ]
  }

  function BmsTemplate(): (t: seq<TestSpec>)
    ensures |t| == 5 && DistinctIds(t)
  {
    [ TestSpec("conn", "Bağlantı testi", true),
      TestSpec("soc", "SoC/SoH okuma", true),
      TestSpec("pack", "Pack gerilim/akım", true),
      TestSpec("charge", "Charge/discharge testi (dry-run)", false),
      TestSpec("alarm", "Alarm simülasyonu", false) ]
  }

  function BreakersTemplate(): (t: seq<TestSpec>)
    ensures |t| == 5 && DistinctIds(t)
  {
    [ TestSpec("modbus", "Modbus bağlantı", true),
      TestSpec("status", "Durum okuma (open/closed)", true),
      TestSpec("measure", "V/A/PF ölçümler", true),
      TestSpec("coil", "Coil yazma testi (dry-run)", true),
      TestSpec("feedback", "Feedback doğrulama", true) ]
  }

  function AnalyzersTemplate(): (t: seq<TestSpec>)
    ensures |t| == 5 && DistinctIds(t)
  {
    [ TestSpec("conn", "Bağlantı testi", true),
      TestSpec("vip", "V/I/P/Q okuma", true),
      TestSpec("thd", "THD hesaplama", false),
      TestSpec("demand", "Demand entegrasyon", false),
      TestSpec("ptct", "PT/CT oran kontrolü", true) ]
  }

  predicate DistinctIds(tpl: seq<TestSpec>)
  {
    forall i, j :: 0 <= i < j < |tpl| ==> tpl[i].id != tpl[j].id
  }

  /** `getTemplate`: the lowercased type selects a template; any other type gets the inverter's. */
  function GetTemplate(deviceType: string): (tpl: seq<TestSpec>)
    ensures TemplateFor(Lower(deviceType)).Some? ==> tpl == TemplateFor(Lower(deviceType)).value
    ensures TemplateFor(Lower(deviceType)).None? ==> tpl == InverterTemplate()
    ensures |tpl| == 5 && DistinctIds(tpl)
  {
    match TemplateFor(Lower(deviceType))
    case Some(t) => t
    case None => InverterTemplate()
  }

  /** `template.find(t => t.id === testId)`: the first test with the id. */
  function FindTest(tpl: seq<TestSpec>, testId: string): (r: Option<TestSpec>)
    ensures r.Some? ==> r.value in tpl && r.value.id == testId
    ensures r.None? <==> forall k :: 0 <= k < |tpl| ==> tpl[k].id != testId
  {
    if |tpl| == 0 then None
    else if tpl[0].id == testId then Some(tpl[0])
    else FindTest(tpl[1..], testId)
  }

  /** `template.find(t => t.id === testId)?.required`. */
  predicate IsRequired(tpl: seq<TestSpec>, testId: string)
  {
    FindTest(tpl, testId).Some? && FindTest(tpl, testId).value.required
  }

  /** The ids of a template's required tests. */
  function RequiredIds(tpl: seq<TestSpec>): set<string>
  {
    if |tpl| == 0 then {} else (if tpl[0].required then {tpl[0].id} else {}) + RequiredIds(tpl[1..])
  }

  /** `template.filter(t => t.required).length`. */
  function RequiredTotal(tpl: seq<TestSpec>): (n: nat)
    ensures n <= |tpl|
  {
    if |tpl| == 0 then 0 else (if tpl[0].required then 1 else 0) + RequiredTotal(tpl[1..])
  }

  lemma {:induction false} RequiredIdsMembers(tpl: seq<TestSpec>, id: string)
    ensures id in RequiredIds(tpl) <==> exists k :: 0 <= k < |tpl| && tpl[k].id == id && tpl[k].required
  {
    if |tpl| > 0 {
      RequiredIdsMembers(tpl[1..], id);
      if exists k :: 0 <= k < |tpl| && tpl[k].id == id && tpl[k].required {
        var k :| 0 <= k < |tpl| && tpl[k].id == id && tpl[k].required;
        if k > 0 { assert tpl[1..][k - 1] == tpl[k]; }
      }
    }
  }

  /** Of the five tests of each template, 4, 3, 5 and 3 are required ... */
  lemma RequiredCounts()
    ensures RequiredTotal(InverterTemplate()) == 4
    ensures RequiredTotal(BmsTemplate()) == 3
    ensures RequiredTotal(BreakersTemplate()) == 5
    ensures RequiredTotal(AnalyzersTemplate()) == 3
  {
  }

  /** ... namely these. */
  lemma RequiredIdSets()
    ensures RequiredIds(InverterTemplate()) == {"conn", "sunspec", "acdc", "phase"}
    ensures RequiredIds(BmsTemplate()) == {"conn", "soc", "pack"}
    ensures RequiredIds(BreakersTemplate()) == {"modbus", "status", "measure", "coil", "feedback"}
    ensures RequiredIds(AnalyzersTemplate()) == {"conn", "vip", "ptct"}
  {
    InverterRequiredIds();
    BmsRequiredIds();
    BreakersRequiredIds();
    AnalyzersRequiredIds();
  }

  lemma InverterRequiredIds()
    ensures RequiredIds(InverterTemplate()) == {"conn", "sunspec", "acdc", "phase"}
  {
  }

  lemma BmsRequiredIds()
    ensures RequiredIds(BmsTemplate()) == {"conn", "soc", "pack"}
  {
  }

  lemma BreakersRequiredIds()
    ensures RequiredIds(BreakersTemplate()) == {"modbus", "status", "measure", "coil", "feedback"}
  {
  }

  lemma AnalyzersRequiredIds()
    ensures RequiredIds(AnalyzersTemplate()) == {"conn", "vip", "ptct"}
  {
  }

  /** A test result.  Results from `runTest` carry no device type; the field is read from the first result only. */
  datatype TestResult = TestResult(testId: string, passed: bool, deviceType: Option<string>)

  /** A result that counts toward activation. */
  predicate CountsRequired(tpl: seq<TestSpec>, r: TestResult)
  {
    IsRequired(tpl, r.testId) && r.passed
  }

  /** `results.filter(r => r.passed).length`. */
  function PassedCount(results: seq<TestResult>): (n: nat)
    ensures n <= |results|
  {
    if |results| == 0 then 0 else (if results[0].passed then 1 else 0) + PassedCount(results[1..])
  }

  /** `requiredPassed.length`: the passed results that name a required test of the template. */
  function RequiredPassedCount(tpl: seq<TestSpec>, results: seq<TestResult>): (n: nat)
    ensures n <= PassedCount(results)
  {
    if |results| == 0 then 0
    else (if CountsRequired(tpl, results[0]) then 1 else 0) + RequiredPassedCount(tpl, results[1..])
  }

  datatype OverallStatus = OverallStatus(canActivate: bool, requiredPassed: nat, requiredTotal: nat,
                                         totalPassed: nat, totalTests: nat, recommendation: string)

  /** The type the status is computed for: `results[0]?.deviceType || 'inverter'`. */
  function StatusType(results: seq<TestResult>): string
  {
    if |results| > 0 && results[0].deviceType.Some? && results[0].deviceType.value != "" then results[0].deviceType.value
    else "inverter"
  }

  /** `calculateOverallStatus`. */
  function CalculateOverallStatus(results: seq<TestResult>): (s: OverallStatus)
    ensures s.canActivate <==> s.requiredPassed == s.requiredTotal
    ensures s.recommendation == (if s.canActivate then "Active" else "Draft")
    ensures s.requiredPassed <= s.totalPassed <= s.totalTests == |results|
    ensures s.requiredTotal == RequiredTotal(GetTemplate(StatusType(results)))
    ensures s.requiredPassed == RequiredPassedCount(GetTemplate(StatusType(results)), results)
    ensures s.totalPassed == PassedCount(results)
  {
    var tpl := GetTemplate(StatusType(results));
    var requiredPassed := RequiredPassedCount(tpl, results);
    var requiredTotal := RequiredTotal(tpl);
    var canActivate := requiredPassed == requiredTotal;
    OverallStatus(canActivate, requiredPassed, requiredTotal, PassedCount(results), |results|,
                  if canActivate then "Active" else "Draft")
  }

  // ---------------------------------------------------------------------------
  // When every test is reported at most once, activation means exactly that
  // every required test has a passing result.

  predicate DistinctResults(results: seq<TestResult>)
  {
    forall i, j :: 0 <= i < j < |results| ==> results[i].testId != results[j].testId
  }

  /** The ids of the results that count toward activation. */
  function PassedRequiredIds(tpl: seq<TestSpec>, results: seq<TestResult>): set<string>
  {
    if |results| == 0 then {}
    else (if CountsRequired(tpl, results[0]) then {results[0].testId} else {}) + PassedRequiredIds(tpl, results[1..])
  }

  lemma {:induction false} PassedRequiredIdsMembers(tpl: seq<TestSpec>, results: seq<TestResult>, id: string)
    ensures id in PassedRequiredIds(tpl, results) <==>
      exists k :: 0 <= k < |results| && results[k].testId == id && CountsRequired(tpl, results[k])
  {
    if |results| > 0 {
      PassedRequiredIdsMembers(tpl, results[1..], id);
      if exists k :: 0 <= k < |results| && results[k].testId == id && CountsRequired(tpl, results[k]) {
        var k :| 0 <= k < |results| && results[k].testId == id && CountsRequired(tpl, results[k]);
        if k > 0 { assert results[1..][k - 1] == results[k]; }
      }
    }
  }

  lemma IsRequiredMeans(tpl: seq<TestSpec>, id: string)
    requires DistinctIds(tpl)
    ensures IsRequired(tpl, id) <==> id in RequiredIds(tpl)
  {
    RequiredIdsMembers(tpl, id);
    if id in RequiredIds(tpl) {
      var k :| 0 <= k < |tpl| && tpl[k].id == id && tpl[k].required;
      var t := FindTest(tpl, id).value;
      var m :| 0 <= m < |tpl| && tpl[m] == t;
      assert m == k;
    }
  }

  /** With distinct test ids, the count of counting results is the number of their ids. */
  lemma {:induction false} CountIsIdCount(tpl: seq<TestSpec>, results: seq<TestResult>)
    requires DistinctResults(results)
    ensures RequiredPassedCount(tpl, results) == |PassedRequiredIds(tpl, results)|
  {
    if |results| > 0 {
      var rest := results[1..];
      assert DistinctResults(rest) by {
        forall i, j | 0 <= i < j < |rest| ensures rest[i].testId != rest[j].testId {
          assert rest[i] == results[i + 1] && rest[j] == results[j + 1];
        }
      }
      CountIsIdCount(tpl, rest);
      PassedRequiredIdsMembers(tpl, rest, results[0].testId);
      forall k | 0 <= k < |rest| ensures rest[k].testId != results[0].testId {
        assert rest[k] == results[k + 1];
      }
    }
  }

  /** The required ids of a template with distinct ids number as many as its required tests. */
  lemma {:induction false} RequiredIdCount(tpl: seq<TestSpec>)
    requires DistinctIds(tpl)
    ensures |RequiredIds(tpl)| == RequiredTotal(tpl)
  {
    if |tpl| > 0 {
      var rest := tpl[1..];
      assert DistinctIds(rest) by {
        forall i, j | 0 <= i < j < |rest| ensures rest[i].id != rest[j].id {
          assert rest[i] == tpl[i + 1] && rest[j] == tpl[j + 1];
        }
      }
      RequiredIdCount(rest);
      RequiredIdsMembers(rest, tpl[0].id);
      forall k | 0 <= k < |rest| ensures rest[k].id != tpl[0].id {
        assert rest[k] == tpl[k + 1];
      }
    }
  }

  /** A subset as large as its superset is the whole superset. */
  lemma SubsetSameSize<T>(a: set<T>, b: set<T>)
    requires a <= b && |a| == |b|
    ensures a == b
  {
    if a != b {
      var x :| x in b && x !in a;
      assert a <= b - {x};
      SubsetCard(a, b - {x});
    }
  }

  lemma {:induction false} SubsetCard<T>(a: set<T>, b: set<T>)
    requires a <= b
    ensures |a| <= |b|
    decreases |b|
  {
    if a != {} {
      var x :| x in a;
      SubsetCard(a - {x}, b - {x});
    }
  }

  /** Every required test of the template has a passing result. */
  predicate AllRequiredPassed(tpl: seq<TestSpec>, results: seq<TestResult>)
  {
    forall id :: id in RequiredIds(tpl) ==> exists r :: r in results && r.testId == id && r.passed
  }

  lemma PassedWithinRequired(tpl: seq<TestSpec>, results: seq<TestResult>)
    requires DistinctIds(tpl)
    ensures PassedRequiredIds(tpl, results) <= RequiredIds(tpl)
  {
    forall id | id in PassedRequiredIds(tpl, results) ensures id in RequiredIds(tpl) {
      PassedRequiredIdsMembers(tpl, results, id);
      IsRequiredMeans(tpl, id);
    }
  }

  lemma CoverageIsInclusion(tpl: seq<TestSpec>, results: seq<TestResult>)
    requires DistinctIds(tpl)
    ensures AllRequiredPassed(tpl, results) <==> RequiredIds(tpl) <= PassedRequiredIds(tpl, results)
  {
    if AllRequiredPassed(tpl, results) {
      forall id | id in RequiredIds(tpl) ensures id in PassedRequiredIds(tpl, results) {
        var r :| r in results && r.testId == id && r.passed;
        var k :| 0 <= k < |results| && results[k] == r;
        IsRequiredMeans(tpl, id);
        PassedRequiredIdsMembers(tpl, results, id);
      }
    }
    if RequiredIds(tpl) <= PassedRequiredIds(tpl, results) {
      forall id | id in RequiredIds(tpl) ensures exists r :: r in results && r.testId == id && r.passed {
        PassedRequiredIdsMembers(tpl, results, id);
        var k :| 0 <= k < |results| && results[k].testId == id && CountsRequired(tpl, results[k]);
        assert results[k] in results;
      }
    }
  }

  /**
   * For results that name each test at most once, the template verdict
   * `canActivate` holds exactly when every required test of the template has
   * a passing result.
   */
  lemma CanActivateIffAllRequiredPassed(tpl: seq<TestSpec>, results: seq<TestResult>)
    requires DistinctIds(tpl) && DistinctResults(results)
    ensures RequiredPassedCount(tpl, results) == RequiredTotal(tpl) <==> AllRequiredPassed(tpl, results)
  {
    CountIsIdCount(tpl, results);
    RequiredIdCount(tpl);
    PassedWithinRequired(tpl, results);
    CoverageIsInclusion(tpl, results);
    var got := PassedRequiredIds(tpl, results);
    var want := RequiredIds(tpl);
    if AllRequiredPassed(tpl, results) {
      assert got == want;
    }
    if |got| == |want| {
      SubsetSameSize(got, want);
    }
  }

  /** The status computed from the first result's type: the verdict is the coverage of the required tests. */
  lemma OverallStatusMeaning(results: seq<TestResult>)
    requires DistinctResults(results)
    ensures CalculateOverallStatus(results).canActivate <==> AllRequiredPassed(GetTemplate(StatusType(results)), results)
  {
    CanActivateIffAllRequiredPassed(GetTemplate(StatusType(results)), results);
  }

  /**
   * The count does not look at test ids, so a test reported as passed four
   * times unlocks an inverter whose other required tests never ran ...
   */
  lemma RepeatedPassesActivate()
    ensures CalculateOverallStatus([ TestResult("conn", true, None), TestResult("conn", true, None),
                                     TestResult("conn", true, None), TestResult("conn", true, None) ]).canActivate
  {
    var results := [ TestResult("conn", true, None), TestResult("conn", true, None),
                     TestResult("conn", true, None), TestResult("conn", true, None) ];
    var tpl := InverterTemplate();
    assert StatusType(results) == "inverter";
    InverterSelected();
    assert IsRequired(tpl, "conn");
    assert RequiredPassedCount(tpl, results) == 4;
    RequiredCounts();
  }

  /** The type 'inverter' selects the inverter template. */
  lemma InverterSelected()
    ensures GetTemplate("inverter") == InverterTemplate()
  {
    LowerWithoutCapitals("inverter");
  }

  /** Appending a result adds one to the count exactly when that result counts. */
  lemma {:induction false} RequiredPassedCountAppend(tpl: seq<TestSpec>, results: seq<TestResult>, extra: TestResult)
    ensures RequiredPassedCount(tpl, results + [extra])
         == RequiredPassedCount(tpl, results) + (if CountsRequired(tpl, extra) then 1 else 0)
  {
    if |results| > 0 {
      assert (results + [extra])[1..] == results[1..] + [extra];
      RequiredPassedCountAppend(tpl, results[1..], extra);
    }
  }

  /**
   * ... and one more passing report of a required test, a re-run say, sends a
   * device that could be activated back to Draft: the count then exceeds the
   * number of required tests.
   */
  lemma ExtraPassKeepsDraft(results: seq<TestResult>, extra: TestResult)
    requires |results| > 0 && CalculateOverallStatus(results).canActivate
    requires CountsRequired(GetTemplate(StatusType(results)), extra)
    ensures !CalculateOverallStatus(results + [extra]).canActivate
  {
    var tpl := GetTemplate(StatusType(results));
    assert (results + [extra])[0] == results[0];
    assert StatusType(results + [extra]) == StatusType(results);
    RequiredPassedCountAppend(tpl, results, extra);
  }

  /** `generateTestDetails`: the message for a known test id, otherwise 'OK' or 'Failed'. */
  function TestDetails(testId: string, passed: bool): (msg: string)
    ensures msg != ""
    ensures KnownDetail(testId).Some? ==> msg == (if passed then KnownDetail(testId).value.0 else KnownDetail(testId).value.1)
    ensures KnownDetail(testId).None? ==> msg == (if passed then "OK" else "Failed")
  {
    match KnownDetail(testId)
    case Some(pair) => if passed then pair.0 else pair.1
    case None => if passed then "OK" else "Failed"
  }

  /** The source's message table: (message when passed, message when failed). */
  function KnownDetail(testId: string): (r: Option<(string, string)>)
    ensures r.Some? ==> r.value.0 != "" && r.value.1 != ""
  {
    if testId == "conn" then Some(("Latency: 23ms, Timeout: OK", "Connection timeout"))
    else if testId == "sunspec" then Some(("Model 103 detected, 120 registers", "No SunSpec response"))
    else if testId == "acdc" then Some(("AC: 150kW, DC: 155kW, Eff: 96.8%", "AC/DC mismatch detected"))
    else if testId == "plimit" then Some(("P-limit 90% → 135kW measured", "P-limit command failed"))
    else if testId == "phase" then Some(("L1-L2-L3 sequence correct", "Phase rotation error"))
    else if testId == "soc" then Some(("SoC: 75%, SoH: 98%", "Invalid SoC reading"))
    else if testId == "pack" then Some(("Pack: 720V, 85A", "Pack voltage out of range"))
    else if testId == "charge" then Some(("Charge test: 50kW → SoC +2%", "Charge command rejected"))
    else if testId == "modbus" then Some(("Slave ID 1 responds", "Modbus timeout"))
    else if testId == "status" then Some(("Status: Closed, FB confirmed", "Feedback mismatch"))
    else if testId == "measure" then Some(("V1: 400V, A1: 120A, PF: 0.99", "Measurement error"))
    else if testId == "coil" then Some(("Open coil test: FB OK", "Coil write failed"))
    else if testId == "feedback" then Some(("All FB bits functional", "Trip FB stuck"))
    else if testId == "vip" then Some(("V: 400V, I: 120A, P: 48kW", "Reading timeout"))
    else if testId == "thd" then Some(("THD_V: 2.1%, THD_I: 3.4%", "THD calculation error"))
    else if testId == "demand" then Some(("Demand window: 15min OK", "Demand sync failed"))
    else if testId == "ptct" then Some(("PT: 400:1, CT: 1000:5", "Ratio mismatch"))
    else None
  }
}
