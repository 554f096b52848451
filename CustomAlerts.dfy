/** The custom-alerts page (frontend CustomAlerts/index.tsx): the alert form and its add, edit
    and update handlers over the alert list of the page's notification hook, and the list of saved market snapshots. */
module CustomAlerts {
  import opened Wrappers
  import opened Seqs
  import opened Market
  import opened Notifications
  import opened OpenInterestDashboard

  /** A saved copy of the option-chain data under a name; `timestamp` is supplied by the caller. */
  datatype Snapshot = Snapshot(id: string, name: string, timestamp: int, data: Option<OIData>)

  /** The six editable fields of an alert. */
  datatype AlertForm = AlertForm(
    symbol: string,
    strike: string,
    optionType: OptionSide,
    alertType: string,
    threshold: real,
    percentage: real)

  const DefaultForm: AlertForm := AlertForm("", "", CE, "OI_INCREASE", 0.0, 10.0)

  /** The form filled from an existing alert. */
  function FormOf(alert: Alert): AlertForm
  {
    AlertForm(alert.symbol, alert.strike, alert.optionType, alert.alertType, alert.threshold, alert.percentage)
  }

  /** A new alert from the form: always active. */
  function DraftOf(form: AlertForm): AlertDraft
  {
    AlertDraft(form.symbol, form.strike, form.optionType, form.alertType, form.threshold, form.percentage, true)
  }

  /** The alert `addAlert({ ...newAlert, isActive: true })` appends: the form's fields, active,
      with the caller's id and creation time. */
  function AddedAlert(form: AlertForm, id: string, now: int): (a: Alert)
    ensures FormOf(a) == form && a.isActive
    ensures a.id == id && a.createdAt == now
  {
    Alert(id, form.symbol, form.strike, form.optionType, form.alertType, form.threshold, form.percentage, true, now)
  }

  /** The form passed as a partial alert: it sets the six form fields and nothing else. */
  function FormUpdate(form: AlertForm): (u: AlertUpdate)
    ensures u.id.None? && u.isActive.None? && u.createdAt.None?
  {
    AlertUpdate(None, Some(form.symbol), Some(form.strike), Some(form.optionType), Some(form.alertType),
      Some(form.threshold), Some(form.percentage), None, None)
  }

  /** Updating an alert with the form it was edited into changes exactly the form's fields:
      saving an unchanged edit gives back the same alert, and the alert's form afterwards is the
      submitted form. */
  lemma UpdateFromFormRoundTrip(alert: Alert, form: AlertForm)
    ensures FormOf(ApplyUpdate(alert, FormUpdate(form))) == form
    ensures ApplyUpdate(alert, FormUpdate(FormOf(alert))) == alert
    ensures var a := ApplyUpdate(alert, FormUpdate(form));
      a.id == alert.id && a.isActive == alert.isActive && a.createdAt == alert.createdAt
  {
  }

  /** The characters JavaScript's `trim` removes: white space and line terminators. */
  predicate IsJsWhitespace(c: char)
  {
    var n := c as int;
    n == 0x09 || n == 0x0A || n == 0x0B || n == 0x0C || n == 0x0D || n == 0x20 || n == 0xA0
    || n == 0x1680 || (0x2000 <= n <= 0x200A) || n == 0x2028 || n == 0x2029 || n == 0x202F
    || n == 0x205F || n == 0x3000 || n == 0xFEFF
  }

  /** Removes leading white space: what is left starts with a non-space, and what was removed was all space. */
  function TrimStart(s: string): (t: string)
    ensures |t| <= |s| && t == s[|s| - |t|..]
    ensures t == [] || !IsJsWhitespace(t[0])
    ensures forall i :: 0 <= i < |s| - |t| ==> IsJsWhitespace(s[i])
  {
    if s != [] && IsJsWhitespace(s[0]) then TrimStart(s[1..]) else s
  }

  /** Removes trailing white space. */
  function TrimEnd(s: string): (t: string)
    ensures |t| <= |s| && t == s[..|t|]
    ensures t == [] || !IsJsWhitespace(t[|t| - 1])
    ensures forall i :: |t| <= i < |s| ==> IsJsWhitespace(s[i])
  {
    if s != [] && IsJsWhitespace(s[|s| - 1]) then TrimEnd(s[..|s| - 1]) else s
  }

  /** `trim()`: the part of the string between its leading whitespace (as many characters as
      `TrimStart` drops) and its trailing whitespace; neither end of the result is whitespace. */
  function Trim(s: string): (t: string)
    ensures t == [] || (!IsJsWhitespace(t[0]) && !IsJsWhitespace(t[|t| - 1]))
    ensures var k := |s| - |TrimStart(s)|;
      && 0 <= k && k + |t| <= |s| && t == s[k..k + |t|]
      && (forall i :: 0 <= i < k ==> IsJsWhitespace(s[i]))
      && (forall i :: k + |t| <= i < |s| ==> IsJsWhitespace(s[i]))
  {
    var u := TrimStart(s);
    var t := TrimEnd(u);
    PrefixOfSuffix(s, u, t);
    t
  }

  /** A prefix `t` of a suffix `u` of `s` is the slice of `s` that starts where `u` does. */
  lemma PrefixOfSuffix(s: string, u: string, t: string)
    requires |u| <= |s| && u == s[|s| - |u|..]
    requires |t| <= |u| && t == u[..|t|]
    ensures var k := |s| - |u|;
      && t == s[k..k + |t|]
      && forall i :: k + |t| <= i < |s| ==> s[i] == u[i - k]
  {
  }

  /** A name trims to nothing exactly when it consists of white space only. */
  lemma TrimEmptyIffAllWhitespace(s: string)
    ensures Trim(s) == "" <==> forall i :: 0 <= i < |s| ==> IsJsWhitespace(s[i])
  {
    var t := TrimStart(s);
    if t != [] {
      assert !IsJsWhitespace(s[|s| - |t|]);
      assert TrimEnd(t) != [];
    }
  }

  /** `getAlertTypeLabel`: the four known codes get their labels; anything else is shown as is. */
  function AlertTypeLabel(code: string): (shown: string)
    ensures code == "OI_INCREASE" ==> shown == "OI Increase"
    ensures code == "OI_DECREASE" ==> shown == "OI Decrease"
    ensures code == "PRICE_ABOVE" ==> shown == "Price Above"
    ensures code == "PRICE_BELOW" ==> shown == "Price Below"
    ensures code !in {"OI_INCREASE", "OI_DECREASE", "PRICE_ABOVE", "PRICE_BELOW"} ==> shown == code
  {
    match code
    case "OI_INCREASE" => "OI Increase"
    case "OI_DECREASE" => "OI Decrease"
    case "PRICE_ABOVE" => "Price Above"
    case "PRICE_BELOW" => "Price Below"
    case _ => code
  }

  /** One change made in the alert form. */
  datatype FormEdit =
    | SymbolEdit(symbol: string)
    | StrikeEdit(strike: string)
    | OptionTypeEdit(optionType: OptionSide)
    | AlertTypeEdit(alertType: string)
    | ThresholdEdit(threshold: real)
    | PercentageEdit(percentage: real)

  function ApplyEdit(form: AlertForm, edit: FormEdit): AlertForm
  {
    match edit
    case SymbolEdit(v) => form.(symbol := v)
    case StrikeEdit(v) => form.(strike := v)
    case OptionTypeEdit(v) => form.(optionType := v)
    case AlertTypeEdit(v) => form.(alertType := v)
    case ThresholdEdit(v) => form.(threshold := v)
    case PercentageEdit(v) => form.(percentage := v)
  }

  /** The snapshot-comparison dialog's state. */
  datatype ComparisonDialog = ComparisonDialog(open: bool, snapshot: Option<Snapshot>)

  /** The page's state; the alerts themselves live in the list kept by the page's notification hook. */
  class CustomAlertsPage {
    const center: NotificationCenter
    var snapshots: seq<Snapshot>
    var showAddAlert: bool
    var editingAlert: Option<Alert>
    var newAlert: AlertForm
    var snapshotName: string
    var comparison: ComparisonDialog

    constructor (center: NotificationCenter)
      ensures this.center == center && snapshots == [] && !showAddAlert && editingAlert.None?
      ensures newAlert == DefaultForm && snapshotName == "" && comparison == ComparisonDialog(false, None)
    {
      this.center := center;
      snapshots := [];
      showAddAlert := false;
      editingAlert := None;
      newAlert := DefaultForm;
      snapshotName := "";
      comparison := ComparisonDialog(false, None);
    }

    /** Adds the form as a new active alert unless its symbol or strike is empty; then resets
        the form and hides it. */
    method HandleAddAlert(id: string, now: int)
      modifies this, center`alerts
      ensures old(newAlert.symbol) == "" || old(newAlert.strike) == "" ==>
        center.alerts == old(center.alerts) && newAlert == old(newAlert) && showAddAlert == old(showAddAlert)
      ensures old(newAlert.symbol) != "" && old(newAlert.strike) != "" ==>
        center.alerts == old(center.alerts) + [AddedAlert(old(newAlert), id, now)]
        && newAlert == DefaultForm && !showAddAlert
      ensures snapshots == old(snapshots) && editingAlert == old(editingAlert) && snapshotName == old(snapshotName)
      ensures comparison == old(comparison)
    {
      if newAlert.symbol == "" || newAlert.strike == "" {
        return;
      }
      center.AddAlert(DraftOf(newAlert), id, now);
      newAlert := DefaultForm;
      showAddAlert := false;
    }

    /** Starts editing: the alert's six fields go into the form, which opens. */
    method HandleEditAlert(alert: Alert)
      modifies this
      ensures editingAlert == Some(alert) && newAlert == FormOf(alert) && showAddAlert
      ensures snapshots == old(snapshots) && snapshotName == old(snapshotName) && comparison == old(comparison)
    {
      editingAlert := Some(alert);
      newAlert := FormOf(alert);
      showAddAlert := true;
    }

    /** Saves the form into the alert being edited; without one it does nothing. */
    method HandleUpdateAlert()
      modifies this, center`alerts
      ensures old(editingAlert).None? ==>
        center.alerts == old(center.alerts) && editingAlert == old(editingAlert)
        && newAlert == old(newAlert) && showAddAlert == old(showAddAlert)
      ensures old(editingAlert).Some? ==>
        center.alerts == UpdateAlerts(old(center.alerts), old(editingAlert).value.id, FormUpdate(old(newAlert)))
        && editingAlert.None? && !showAddAlert && newAlert == DefaultForm
      ensures snapshots == old(snapshots) && snapshotName == old(snapshotName) && comparison == old(comparison)
    {
      if editingAlert.None? {
        return;
      }
      center.UpdateAlert(editingAlert.value.id, FormUpdate(newAlert));
      editingAlert := None;
      showAddAlert := false;
      newAlert := DefaultForm;
    }

    /** The form's submit button: update while editing, add otherwise. */
    method Submit(id: string, now: int)
      modifies this, center`alerts
      ensures old(editingAlert).Some? ==>
        center.alerts == UpdateAlerts(old(center.alerts), old(editingAlert).value.id, FormUpdate(old(newAlert)))
        && editingAlert.None? && !showAddAlert && newAlert == DefaultForm
      ensures old(editingAlert).None? && (old(newAlert.symbol) == "" || old(newAlert.strike) == "") ==>
        center.alerts == old(center.alerts) && editingAlert.None?
        && newAlert == old(newAlert) && showAddAlert == old(showAddAlert)
      ensures old(editingAlert).None? && old(newAlert.symbol) != "" && old(newAlert.strike) != "" ==>
        center.alerts == old(center.alerts) + [AddedAlert(old(newAlert), id, now)]
        && editingAlert.None? && newAlert == DefaultForm && !showAddAlert
      ensures snapshots == old(snapshots) && snapshotName == old(snapshotName) && comparison == old(comparison)
    {
      if editingAlert.Some? {
        HandleUpdateAlert();
      } else {
        HandleAddAlert(id, now);
      }
    }

    /** The form's cancel button: hides the form, stops editing and resets the fields. */
    method Cancel()
      modifies this
      ensures !showAddAlert && editingAlert.None? && newAlert == DefaultForm
      ensures snapshots == old(snapshots) && snapshotName == old(snapshotName) && comparison == old(comparison)
    {
      showAddAlert := false;
      editingAlert := None;
      newAlert := DefaultForm;
    }

    method OpenAddAlert()
      modifies this`showAddAlert
      ensures showAddAlert
    {
      showAddAlert := true;
    }

    /** A change in one form field. */
    method EditForm(edit: FormEdit)
      modifies this`newAlert
      ensures newAlert == ApplyEdit(old(newAlert), edit)
    {
      newAlert := ApplyEdit(newAlert, edit);
    }

    method SetSnapshotName(name: string)
      modifies this`snapshotName
      ensures snapshotName == name
    {
      snapshotName := name;
    }

    /** Saves the current data under the typed name, unless the name is blank after trimming;
        the name is stored as typed and the field is cleared. */
    method CreateSnapshot(id: string, now: int, data: Option<OIData>)
      modifies this`snapshots, this`snapshotName
      ensures Trim(old(snapshotName)) == "" ==> snapshots == old(snapshots) && snapshotName == old(snapshotName)
      ensures Trim(old(snapshotName)) != "" ==>
        snapshots == old(snapshots) + [Snapshot(id, old(snapshotName), now, data)] && snapshotName == ""
    {
      if Trim(snapshotName) == "" {
        return;
      }
      var snapshot := Snapshot(id, snapshotName, now, data);
      snapshots := snapshots + [snapshot];
      snapshotName := "";
    }

    /** Drops every snapshot with the id and keeps the others in order. */
    method DeleteSnapshot(id: string)
      modifies this`snapshots
      ensures snapshots == Filter(old(snapshots), (s: Snapshot) => s.id != id)
    {
      snapshots := Filter(snapshots, (s: Snapshot) => s.id != id);
    }

    method OpenComparison(snapshot: Snapshot)
      modifies this`comparison
      ensures comparison == ComparisonDialog(true, Some(snapshot))
    {
      comparison := ComparisonDialog(true, Some(snapshot));
    }

    method CloseComparison()
      modifies this`comparison
      ensures comparison == ComparisonDialog(false, None)
    {
      comparison := ComparisonDialog(false, None);
    }
  }
}
