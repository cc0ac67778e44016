/**
 * The settings form (frontend/app/settings/page.tsx). The preferences object
 * is written under computed keys with dynamically typed values, so it is a map
 * from field names to JavaScript values.
 */
module Settings {
  import opened Wrappers
  import Lists

  datatype JsValue =
    | Bool(b: bool)
    | Num(n: int)
    | Str(s: string)
    | StrList(items: seq<string>)
    | Flags(flags: map<string, bool>)

  type Preferences = map<string, JsValue>

  const WeekDays: seq<string> := ["Monday", "Tuesday", "Wednesday", "Thursday", "Friday"]

  /** The form's `onChange` event: the input's name, value, type and checked state. */
  datatype InputEvent = InputEvent(name: string, value: string, inputType: string, checked: bool)

  /** A thrown TypeError: the days list is no longer something with `includes`. */
  datatype RenderError = NotAList

  function InitialPreferences(): (p: Preferences)
    ensures p.Keys == {"notificationsEnabled", "preferredMeetingDays", "maxMeetingsPerDay", "imPreferences"}
    ensures p["notificationsEnabled"] == Bool(true)
    ensures p["preferredMeetingDays"] == StrList(["Monday", "Wednesday", "Friday"])
    ensures p["maxMeetingsPerDay"] == Num(5)
  {
    map[
      "notificationsEnabled" := Bool(true),
      "preferredMeetingDays" := StrList(["Monday", "Wednesday", "Friday"]),
      "maxMeetingsPerDay" := Num(5),
      "imPreferences" := Flags(map["wechat-work" := true, "feishu" := false, "dingtalk" := true, "slack" := false, "ms-teams" := true])
    ]
  }

  /** The IM tools start with WeChat Work, DingTalk and Teams on, Feishu and Slack off. */
  lemma InitialImPreferences()
    ensures var im := InitialPreferences()["imPreferences"];
      im.Flags? && im.flags.Keys == {"wechat-work", "feishu", "dingtalk", "slack", "ms-teams"} &&
      (forall id :: id in im.flags ==> (im.flags[id] <==> id in {"wechat-work", "dingtalk", "ms-teams"}))
  {
  }

  /**
   * `handleChange`: the field named by the input becomes its checked state for
   * a checkbox and its text for any other input; all other fields are kept.
   */
  function HandleChange(p: Preferences, e: InputEvent): (r: Preferences)
    ensures r.Keys == p.Keys + {e.name}
    ensures e.inputType == "checkbox" ==> r[e.name] == Bool(e.checked)
    ensures e.inputType != "checkbox" ==> r[e.name] == Str(e.value)
    ensures forall k :: k in p && k != e.name ==> r[k] == p[k]
  {
    p[e.name := if e.inputType == "checkbox" then Bool(e.checked) else Str(e.value)]
  }

  /** Whether `id` is on in an IM preference record; a missing key reads as `undefined`, which is falsy. */
  predicate ImEnabled(flags: map<string, bool>, id: string) {
    id in flags && flags[id]
  }

  /**
   * `handleImPreferenceChange(id)`: that tool's flag is negated, every other
   * tool and every other field is kept. The record is always present, since
   * no input of the form carries its name.
   */
  function HandleImPreferenceChange(p: Preferences, id: string): (r: Preferences)
    requires "imPreferences" in p && p["imPreferences"].Flags?
    ensures r.Keys == p.Keys
    ensures forall k :: k in p && k != "imPreferences" ==> r[k] == p[k]
    ensures r["imPreferences"].Flags?
    ensures r["imPreferences"].flags.Keys == p["imPreferences"].flags.Keys + {id}
    ensures ImEnabled(r["imPreferences"].flags, id) <==> !ImEnabled(p["imPreferences"].flags, id)
    ensures forall k :: k in p["imPreferences"].flags && k != id ==> r["imPreferences"].flags[k] == p["imPreferences"].flags[k]
  {
    var im := p["imPreferences"].flags;
    p["imPreferences" := Flags(im[id := !ImEnabled(im, id)])]
  }

  /** The notification switch sets `notificationsEnabled` and nothing else. */
  function SetNotificationsEnabled(p: Preferences, checked: bool): (r: Preferences)
    ensures r.Keys == p.Keys + {"notificationsEnabled"}
    ensures r["notificationsEnabled"] == Bool(checked)
    ensures forall k :: k in p && k != "notificationsEnabled" ==> r[k] == p[k]
  {
    p["notificationsEnabled" := Bool(checked)]
  }

  /** Whether `part` occurs in `whole` as a contiguous piece (`String.prototype.includes`). */
  predicate Contains(whole: string, part: string) {
    part <= whole || (whole != [] && Contains(whole[1..], part))
  }

  /**
   * Whether the checkbox for `day` is ticked: `includes` on the days field, a
   * list membership test, a substring test on a string, and a TypeError on
   * anything else.
   */
  function DayChecked(p: Preferences, day: string): (r: Result<bool, RenderError>)
    requires "preferredMeetingDays" in p
    ensures p["preferredMeetingDays"].StrList? ==> r == Success(day in p["preferredMeetingDays"].items)
    ensures p["preferredMeetingDays"].Bool? || p["preferredMeetingDays"].Num? || p["preferredMeetingDays"].Flags? ==> r.Failure?
  {
    match p["preferredMeetingDays"]
    case StrList(items) => Success(day in items)
    case Str(s) => Success(Contains(s, day))
    case _ => Failure(NotAList)
  }

  /** Initially Monday, Wednesday and Friday are ticked and Tuesday and Thursday are not. */
  lemma InitialDays()
    ensures forall i :: 0 <= i < |WeekDays| ==>
      DayChecked(InitialPreferences(), WeekDays[i]) == Success(WeekDays[i] in {"Monday", "Wednesday", "Friday"})
  {
  }

  /**
   * The day checkboxes share the name `preferredMeetingDays`, so ticking or
   * unticking any of them replaces the list by a boolean, and the next render
   * of every day checkbox throws.
   */
  lemma DayCheckboxBreaksList(p: Preferences, day: string, checked: bool)
    ensures var after := HandleChange(p, InputEvent("preferredMeetingDays", day, "checkbox", checked));
      forall d :: DayChecked(after, d).Failure?
  {
  }

  function OtherThan(day: string): string -> bool {
    (d: string) => d != day
  }

  /** The evidently intended day checkbox: the day is added to or removed from the list. */
  function ToggleDay(p: Preferences, day: string, checked: bool): (r: Preferences)
    requires "preferredMeetingDays" in p && p["preferredMeetingDays"].StrList?
    ensures r.Keys == p.Keys
    ensures forall k :: k in p && k != "preferredMeetingDays" ==> r[k] == p[k]
    ensures r["preferredMeetingDays"].StrList?
  {
    var items := p["preferredMeetingDays"].items;
    if checked then
      p["preferredMeetingDays" := StrList(if day in items then items else items + [day])]
    else
      p["preferredMeetingDays" := StrList(Lists.Filter(items, OtherThan(day)))]
  }

  /** With the corrected checkbox, the ticked state of the day follows the event, and every other day keeps its own. */
  lemma ToggleDayFollowsCheckbox(p: Preferences, day: string, checked: bool, other: string)
    requires "preferredMeetingDays" in p && p["preferredMeetingDays"].StrList?
    ensures DayChecked(ToggleDay(p, day, checked), day) == Success(checked)
    ensures other != day ==> DayChecked(ToggleDay(p, day, checked), other) == DayChecked(p, other)
  {
    var items := p["preferredMeetingDays"].items;
    Lists.FilterMembership(items, OtherThan(day), day);
    Lists.FilterMembership(items, OtherThan(day), other);
  }
}
