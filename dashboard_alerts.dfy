/** The dashboard's alert rules: a sensor reading is checked against a
    fixed threshold table, and the alerts it raises are merged into the
    farmer's current list (`alerts_current`) without repeating a signature
    already there, keeping the newest 100. */
module DashboardAlerts {
  import opened Wrappers
  import opened Lists
  import opened Records
  import opened Store

  /** The threshold table. */
  const HeatRuleTemp: real := 30.0
  const HeatRuleRH: real := 30.0
  const ExtremeHeatTemp: real := 40.0
  const PmThai: real := 37.5
  const PmUnhealthy: real := 55.5

  const MaxCurrent: nat := 100

  /** A sensor reading after `Number(...)`; `None` is NaN. */
  datatype Reading = Reading(temperature: Option<real>, humidity: Option<real>, pm25: Option<real>)

  /** The four rules of the table, in the order they are checked. */
  datatype Rule = ExtremeHeatRule | FireRiskRule | PmVeryHighRule | PmOverThaiStdRule

  /** The rule's signature, which the merge uses to recognise an alert. */
  function Signature(rule: Rule): string {
    match rule
    case ExtremeHeatRule => "extremeHeat"
    case FireRiskRule => "fireRiskSimple"
    case PmVeryHighRule => "pmVeryHigh"
    case PmOverThaiStdRule => "pmOverThaiStd"
  }

  /** Different rules never share a signature. */
  lemma SignatureInjective(a: Rule, b: Rule)
    ensures Signature(a) == Signature(b) ==> a == b
  {
    if a != b {
      assert Signature(a)[..4] != Signature(b)[..4] || Signature(a)[2] != Signature(b)[2];
    }
  }

  /** When each rule holds. The temperature rules need both temperature and
      humidity to be numbers; the PM rules are alternatives. */
  predicate Holds(rule: Rule, r: Reading) {
    match rule
    case ExtremeHeatRule =>
      r.temperature.Some? && r.humidity.Some? && r.temperature.value >= ExtremeHeatTemp
    case FireRiskRule =>
      r.temperature.Some? && r.humidity.Some?
      && r.temperature.value >= HeatRuleTemp && r.humidity.value <= HeatRuleRH
    case PmVeryHighRule =>
      r.pm25.Some? && r.pm25.value > PmUnhealthy
    case PmOverThaiStdRule =>
      r.pm25.Some? && PmThai < r.pm25.value <= PmUnhealthy
  }

  /** The temperature rules a reading raises, in table order. */
  function TemperatureFired(r: Reading): seq<Rule> {
    (if Holds(ExtremeHeatRule, r) then [ExtremeHeatRule] else [])
    + (if Holds(FireRiskRule, r) then [FireRiskRule] else [])
  }

  /** The PM rule a reading raises, if any. */
  function PmFired(r: Reading): seq<Rule> {
    if Holds(PmVeryHighRule, r) then [PmVeryHighRule]
    else if Holds(PmOverThaiStdRule, r) then [PmOverThaiStdRule]
    else []
  }

  /** The rules a reading raises, in table order. */
  function Fired(r: Reading): seq<Rule> {
    TemperatureFired(r) + PmFired(r)
  }

  /** Each rule is raised exactly when it holds. */
  lemma FiredExactly(r: Reading, rule: Rule)
    ensures rule in Fired(r) <==> Holds(rule, r)
  {
  }

  /** At most three alerts, never two with one signature, and never both PM alerts. */
  lemma FiredShape(r: Reading)
    ensures |Fired(r)| <= 3
    ensures forall i, j :: 0 <= i < j < |Fired(r)| ==> Signature(Fired(r)[i]) != Signature(Fired(r)[j])
    ensures !(PmVeryHighRule in Fired(r) && PmOverThaiStdRule in Fired(r))
  {
    var f := Fired(r);
    forall i, j | 0 <= i < j < |f| ensures Signature(f[i]) != Signature(f[j]) {
      SignatureInjective(f[i], f[j]);
    }
  }

  /** The fixed text after the formatted reading in each rule's message. */
  const ExtremeHeatTail: string := "°C สูงมาก เสี่ยงความเสียหายต่อแรงงาน/อุปกรณ์ ควรพักงานกลางแจ้งและดูแลสวนอย่างใกล้ชิด"
  const FireRiskTail: string := "% ต่ำ เสี่ยงไฟลามเร็ว งดการเผาและเตรียมอุปกรณ์ความปลอดภัย"
  const PmVeryHighTail: string := " µg/m³ สูงมาก ควรใส่หน้ากาก N95 และลดกิจกรรมนอกอาคาร"
  const PmOverThaiStdTail: string := " µg/m³ เกินมาตรฐานไทย (37.5) เฝ้าระวังสุขภาพและลดเวลางานกลางแจ้ง"

  /** The alert each rule raises; `fixed1`/`fixed0` are `toFixed(1)` and
      `toFixed(0)`, `nowStr` the display time. */
  function RuleAlert(rule: Rule, r: Reading, nowStr: string, fixed1: real -> string, fixed0: real -> string): (a: FarmerAlert)
    ensures a.signature == Signature(rule) && a.time == nowStr
    ensures a.color == Some(if rule == PmOverThaiStdRule then "orange" else "red")
  {
    var t := r.temperature.GetOr(0.0);
    var rh := r.humidity.GetOr(0.0);
    var pm := r.pm25.GetOr(0.0);
    match rule
    case ExtremeHeatRule =>
      FarmerAlert("คลื่นความร้อนรุนแรง", Some("รุนแรงมาก"),
                  Some("อุณหภูมิ " + fixed1(t) + ExtremeHeatTail),
                  nowStr, Some("red"), Signature(rule))
    case FireRiskRule =>
      FarmerAlert("สภาวะเสี่ยงไฟป่า", Some("รุนแรง"),
                  Some("อุณหภูมิ " + fixed1(t) + "°C และความชื้น " + fixed0(rh) + FireRiskTail),
                  nowStr, Some("red"), Signature(rule))
    case PmVeryHighRule =>
      FarmerAlert("มลพิษ PM2.5 สูงมาก", Some("รุนแรง"),
                  Some("PM2.5 = " + fixed1(pm) + PmVeryHighTail),
                  nowStr, Some("red"), Signature(rule))
    case PmOverThaiStdRule =>
      FarmerAlert("มลพิษ PM2.5 เกินมาตรฐาน", Some("ระดับเฝ้าระวัง"),
                  Some("PM2.5 = " + fixed1(pm) + PmOverThaiStdTail),
                  nowStr, Some("orange"), Signature(rule))
  }

  /** `evaluateAlerts`: one alert per rule that holds, in table order. */
  method EvaluateAlerts(r: Reading, nowStr: string, fixed1: real -> string, fixed0: real -> string) returns (out: seq<FarmerAlert>)
    ensures |out| == |Fired(r)|
    ensures forall i :: 0 <= i < |out| ==> out[i] == RuleAlert(Fired(r)[i], r, nowStr, fixed1, fixed0)
  {
    out := [];
    ghost var rules: seq<Rule> := [];
    if r.temperature.Some? && r.humidity.Some? {
      if r.temperature.value >= ExtremeHeatTemp {
        out, rules := out + [RuleAlert(ExtremeHeatRule, r, nowStr, fixed1, fixed0)], rules + [ExtremeHeatRule];
      }
      if r.temperature.value >= HeatRuleTemp && r.humidity.value <= HeatRuleRH {
        out, rules := out + [RuleAlert(FireRiskRule, r, nowStr, fixed1, fixed0)], rules + [FireRiskRule];
      }
    }
    assert rules == TemperatureFired(r);
    ghost var tempRules := rules;
    if r.pm25.Some? {
      if r.pm25.value > PmUnhealthy {
        out, rules := out + [RuleAlert(PmVeryHighRule, r, nowStr, fixed1, fixed0)], rules + [PmVeryHighRule];
      } else if r.pm25.value > PmThai {
        out, rules := out + [RuleAlert(PmOverThaiStdRule, r, nowStr, fixed1, fixed0)], rules + [PmOverThaiStdRule];
      }
    }
    assert rules == tempRules + PmFired(r);
  }

  /** `isDuplicate` (`items.some(it => it.signature === signature)`). */
  predicate IsDuplicate(items: seq<FarmerAlert>, signature: string)
    ensures IsDuplicate(items, signature) <==> exists i :: 0 <= i < |items| && items[i].signature == signature
  {
    items != [] && (items[0].signature == signature || IsDuplicate(items[1..], signature))
  }

  function Fresh(current: seq<FarmerAlert>): FarmerAlert -> bool {
    (a: FarmerAlert) => !IsDuplicate(current, a.signature)
  }

  /** The merge inside `fetchData`: the raised alerts whose signature is not
      already current go in front, the list keeps its newest 100, and
      nothing is written when every alert is already there. */
  method MergeAlerts(st: LocalStore, alerts: seq<FarmerAlert>)
    modifies st`alertsCurrent
    ensures var current := Load(old(st.alertsCurrent), []);
      var toAdd := Filter(alerts, Fresh(current));
      if toAdd == [] then st.alertsCurrent == old(st.alertsCurrent)
      else st.alertsCurrent == Present(JsSlice(toAdd + current, 0, MaxCurrent))
  {
    if |alerts| > 0 {
      var current := Load(st.alertsCurrent, []);
      var toAdd: seq<FarmerAlert> := [];
      for i := 0 to |alerts|
        invariant toAdd == Filter(alerts[..i], Fresh(current))
        invariant st.alertsCurrent == old(st.alertsCurrent)
      {
        FilterAppend(alerts[..i], [alerts[i]], Fresh(current));
        assert alerts[..i + 1] == alerts[..i] + [alerts[i]];
        if !IsDuplicate(current, alerts[i].signature) {
          toAdd := toAdd + [alerts[i]];
        }
      }
      assert alerts[..|alerts|] == alerts;
      if toAdd != [] {
        st.alertsCurrent := Present(JsSlice(toAdd + current, 0, MaxCurrent));
      }
    }
  }

  /** What the merge adds never repeats a current signature, and the list
      never grows past 100. */
  lemma MergeAddsOnlyNew(alerts: seq<FarmerAlert>, current: seq<FarmerAlert>)
    ensures forall i :: 0 <= i < |Filter(alerts, Fresh(current))| ==>
      !IsDuplicate(current, Filter(alerts, Fresh(current))[i].signature)
    ensures |JsSlice(Filter(alerts, Fresh(current)) + current, 0, MaxCurrent)| <= MaxCurrent
  {
  }

  /** Below the cap, merging the same alerts again adds nothing: every
      raised signature is current afterwards. */
  lemma MergeSettles(alerts: seq<FarmerAlert>, current: seq<FarmerAlert>)
    requires |Filter(alerts, Fresh(current)) + current| <= MaxCurrent
    ensures Filter(alerts, Fresh(JsSlice(Filter(alerts, Fresh(current)) + current, 0, MaxCurrent))) == []
  {
    var toAdd := Filter(alerts, Fresh(current));
    var next := toAdd + current;
    assert JsSlice(next, 0, MaxCurrent) == next;
    forall i | 0 <= i < |alerts| ensures !Fresh(next)(alerts[i]) {
      if Fresh(current)(alerts[i]) {
        var k :| 0 <= k < |toAdd| && toAdd[k] == alerts[i];
        assert next[k] == alerts[i];
      } else {
        var k :| 0 <= k < |current| && current[k].signature == alerts[i].signature;
        assert next[|toAdd| + k] == current[k];
      }
    }
    FilterNone(alerts, Fresh(next));
  }
}
