/** The farmer's alert page: the current alerts (`alerts_current`), the
    acknowledged history (`alerts_past`, capped at 300), and the samples
    shown while either list is empty. */
module AlertPage {
  import opened Wrappers
  import opened Lists
  import opened Records
  import opened Store

  const MaxPast: nat := 300

  const SampleCurrent: seq<FarmerAlert> := [
    FarmerAlert("คลื่นความร้อนรุนแรง", None,
                Some("อุณหภูมิเกิน 40°C โปรดดูแลระบบน้ำและเฝ้าระวังการคายน้ำของต้น"),
                "09:23 วันนี้", Some("red"), "sample_extreme_heat"),
    FarmerAlert("ฝนตกน้อยกว่าค่าเฉลี่ย", None,
                Some("7 วันที่ผ่านมา ฝนต่ำกว่าปกติ ตรวจสอบความชื้นดินและวางแผนรดน้ำ"),
                "07:50 วันนี้", Some("orange"), "sample_low_rain")
  ]

  const SamplePast: seq<FarmerAlert> := [
    FarmerAlert("ลมกระโชกแรง", None, None, "14 พ.ค. 67, 14:13", Some("orange"), "sample_past_wind"),
    FarmerAlert("แจ้งเตือนอุณหภูมิสูง", None, None, "14 พ.ค. 67, 09:25", Some("red"), "sample_past_heat")
  ]

  /** The page's shape of an alert: no severity, and a colour that is
      always red or orange. */
  function Normalize(a: FarmerAlert): FarmerAlert {
    a.(severity := None, color := Some(if a.color == Some("red") then "red" else "orange"))
  }

  /** `loadAlerts`: nothing when the key is absent or unreadable; otherwise
      every stored alert, in order, with its severity dropped and a colour
      that is red exactly when it was red and orange in every other case. */
  function LoadAlerts(raw: Stored<seq<FarmerAlert>>): (r: seq<FarmerAlert>)
    ensures !raw.Present? ==> r == []
    ensures raw.Present? ==> |r| == |raw.value|
    ensures raw.Present? ==> forall i :: 0 <= i < |r| ==>
      r[i].kind == raw.value[i].kind && r[i].message == raw.value[i].message
      && r[i].time == raw.value[i].time && r[i].signature == raw.value[i].signature
      && r[i].severity == None
      && (r[i].color == Some("red") <==> raw.value[i].color == Some("red"))
      && (r[i].color != Some("red") ==> r[i].color == Some("orange"))
  {
    if raw.Present? then Map(raw.value, Normalize) else []
  }

  /** Saving what was loaded and loading it again changes nothing. */
  lemma LoadAlertsIdempotent(raw: Stored<seq<FarmerAlert>>)
    ensures LoadAlerts(Present(LoadAlerts(raw))) == LoadAlerts(raw)
  {
    var once := LoadAlerts(raw);
    var twice := LoadAlerts(Present(once));
    assert forall i :: 0 <= i < |once| ==> twice[i] == once[i];
  }

  /** `refresh`: what the page shows, with the samples standing in for an
      empty list. Reads the store and changes nothing. */
  method Refresh(st: LocalStore) returns (current: seq<FarmerAlert>, past: seq<FarmerAlert>)
    ensures current != [] && past != []
    ensures LoadAlerts(st.alertsCurrent) != [] ==> current == LoadAlerts(st.alertsCurrent)
    ensures LoadAlerts(st.alertsCurrent) == [] ==> current == SampleCurrent
    ensures LoadAlerts(st.alertsPast) != [] ==> past == LoadAlerts(st.alertsPast)
    ensures LoadAlerts(st.alertsPast) == [] ==> past == SamplePast
  {
    var curr := LoadAlerts(st.alertsCurrent);
    var old_ := LoadAlerts(st.alertsPast);
    current := if |curr| > 0 then curr else SampleCurrent;
    past := if |old_| > 0 then old_ else SamplePast;
  }

  datatype AlertLists = AlertLists(current: seq<FarmerAlert>, past: seq<FarmerAlert>)

  /** Acknowledging alert `idx`: it leaves the current list and heads the
      history, which keeps its newest 300 entries. */
  function AcknowledgeOne(curr: seq<FarmerAlert>, past: seq<FarmerAlert>, idx: nat): (r: AlertLists)
    requires idx < |curr|
    ensures r.current == curr[..idx] + curr[idx + 1..]
    ensures |r.past| == if |past| + 1 <= MaxPast then |past| + 1 else MaxPast
    ensures r.past[0] == curr[idx]
    ensures forall i :: 1 <= i < |r.past| ==> r.past[i] == past[i - 1]
  {
    AlertLists(curr[..idx] + curr[idx + 1..], JsSlice([curr[idx]] + past, 0, MaxPast))
  }

  /** Below the cap, acknowledging moves an alert and loses none. */
  lemma AcknowledgeKeepsTotal(curr: seq<FarmerAlert>, past: seq<FarmerAlert>, idx: nat)
    requires idx < |curr| && |past| < MaxPast
    ensures var r := AcknowledgeOne(curr, past, idx);
      |r.current| + |r.past| == |curr| + |past|
      && multiset(r.current) + multiset(r.past) == multiset(curr) + multiset(past)
  {
    var r := AcknowledgeOne(curr, past, idx);
    assert curr == curr[..idx] + [curr[idx]] + curr[idx + 1..];
    assert r.past == [curr[idx]] + past;
  }

  /** `acknowledge(idx)`: only when the current list is really stored (not
      the samples) and `idx` names one of its alerts; both lists are then
      saved in the page's normalised shape. */
  method Acknowledge(st: LocalStore, idx: int)
    modifies st`alertsCurrent, st`alertsPast
    ensures var curr := LoadAlerts(old(st.alertsCurrent));
      if old(st.alertsCurrent).Absent? || !(0 <= idx < |curr|) then
        st.alertsCurrent == old(st.alertsCurrent) && st.alertsPast == old(st.alertsPast)
      else
        var r := AcknowledgeOne(curr, LoadAlerts(old(st.alertsPast)), idx);
        st.alertsCurrent == Present(r.current) && st.alertsPast == Present(r.past)
  {
    if st.alertsCurrent.Absent? {
      return;
    }
    var curr := LoadAlerts(st.alertsCurrent);
    if idx < 0 || idx >= |curr| {
      return;
    }
    var r := AcknowledgeOne(curr, LoadAlerts(st.alertsPast), idx);
    st.alertsCurrent := Present(r.current);
    st.alertsPast := Present(r.past);
  }

  /** Acknowledging everything: the current list is emptied and heads the
      history, which keeps its newest 300 entries. */
  function AcknowledgeEvery(curr: seq<FarmerAlert>, past: seq<FarmerAlert>): (r: AlertLists)
    ensures r.current == []
    ensures |r.past| == if |curr| + |past| <= MaxPast then |curr| + |past| else MaxPast
    ensures r.past == (curr + past)[..|r.past|]
  {
    AlertLists([], JsSlice(curr + past, 0, MaxPast))
  }

  /** Below the cap nothing is lost: the history is the current list
      followed by the old history. */
  lemma AcknowledgeEveryKeepsAll(curr: seq<FarmerAlert>, past: seq<FarmerAlert>)
    requires |curr| + |past| <= MaxPast
    ensures AcknowledgeEvery(curr, past).past == curr + past
  {
  }

  /** `acknowledgeAll`: skipped only when nothing is stored under the
      current key; an unreadable current list is read as empty and still
      overwritten. */
  method AcknowledgeAll(st: LocalStore)
    modifies st`alertsCurrent, st`alertsPast
    ensures old(st.alertsCurrent).Absent? ==>
      st.alertsCurrent == old(st.alertsCurrent) && st.alertsPast == old(st.alertsPast)
    ensures !old(st.alertsCurrent).Absent? ==>
      var r := AcknowledgeEvery(LoadAlerts(old(st.alertsCurrent)), LoadAlerts(old(st.alertsPast)));
      st.alertsCurrent == Present(r.current) && st.alertsPast == Present(r.past)
  {
    if st.alertsCurrent.Absent? {
      return;
    }
    var r := AcknowledgeEvery(LoadAlerts(st.alertsCurrent), LoadAlerts(st.alertsPast));
    st.alertsCurrent := Present(r.current);
    st.alertsPast := Present(r.past);
  }

  /** `clearHistory`: empties the history; the current list is outside the frame. */
  method ClearHistory(st: LocalStore)
    modifies st`alertsPast
    ensures st.alertsPast == Present([])
  {
    st.alertsPast := Present([]);
  }
}
