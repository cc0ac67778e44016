/**
 * The IM integrations page (frontend/app/integrations/page.tsx): one
 * connected flag per tool, a switch that flips it, and the label and button
 * derived from it. `handleConnect` only writes to the console and changes no
 * state, so it has no model.
 */
module Integrations {
  const ToolIds: seq<string> := ["wechat-work", "feishu", "dingtalk", "slack", "ms-teams"]

  /** The tool ids; an absent key reads as `undefined`, which is falsy. */
  type Flags = map<string, bool>

  predicate Connected(flags: Flags, id: string) {
    id in flags && flags[id]
  }

  /** The initial state: every tool present and disconnected. */
  function InitialIntegrations(): (flags: Flags)
    ensures forall id :: id in flags <==> id in ToolIds
    ensures forall id :: !Connected(flags, id)
  {
    map["wechat-work" := false, "feishu" := false, "dingtalk" := false, "slack" := false, "ms-teams" := false]
  }

  /** `handleToggle(id)`: that tool's flag is negated, every other key is kept. */
  function Toggle(flags: Flags, id: string): (r: Flags)
    ensures r.Keys == flags.Keys + {id}
    ensures Connected(r, id) <==> !Connected(flags, id)
    ensures forall k :: k != id && k in flags ==> r[k] == flags[k]
  {
    flags[id := !Connected(flags, id)]
  }

  /** Toggling the same tool twice gives back the state it started from. */
  lemma ToggleTwice(flags: Flags, id: string)
    requires id in flags
    ensures Toggle(Toggle(flags, id), id) == flags
  {
    var r := Toggle(Toggle(flags, id), id);
    assert r.Keys == flags.Keys;
    assert forall k :: k in r ==> r[k] == flags[k];
  }

  /** Toggling two different tools gives the same state in either order. */
  lemma TogglesCommute(flags: Flags, a: string, b: string)
    requires a != b
    ensures Toggle(Toggle(flags, a), b) == Toggle(Toggle(flags, b), a)
  {
  }

  /** The status line under the tool's name. */
  function StatusLabel(flags: Flags, id: string): (text: string)
    ensures text == "已连接" <==> Connected(flags, id)
  {
    if Connected(flags, id) then "已连接" else "未连接"
  }

  /** The connect button: disabled exactly when connected, and its caption. */
  function ConnectButton(flags: Flags, id: string): (button: (bool, string))
    ensures button.0 <==> Connected(flags, id)
    ensures button.1 == "连接" <==> !Connected(flags, id)
  {
    if Connected(flags, id) then (true, "已连接") else (false, "连接")
  }
}
