/** Which Azure provisioning states let a repair or an update go ahead. */
module Provisioning {
  import opened Options
  import opened Text
  import opened Settings

  /** autopilot/misc.go */
  method StringArrayContains(arr: seq<string>, needle: string) returns (found: bool)
    ensures found <==> needle in arr
  {
    for i := 0 to |arr|
      invariant needle !in arr[..i]
    {
      if arr[i] == needle {
        return true;
      }
    }
    return false;
  }

  function LowerAll(states: seq<string>): seq<string> {
    seq(|states|, i requires 0 <= i < |states| => Lower(states[i]))
  }

  /** The loop in Init that lower-cases the configured states in place. */
  method NormaliseStates(states: array<string>) returns (all: bool)
    modifies states
    ensures states[..] == LowerAll(old(states[..]))
    ensures all <==> "*" in old(states[..])
  {
    all := false;
    for key := 0 to states.Length
      invariant states[..key] == LowerAll(old(states[..key]))
      invariant states[key..] == old(states[key..])
      invariant all <==> "*" in old(states[..key])
    {
      var val := Lower(states[key]);
      LowerStar(states[key]);
      states[key] := val;
      if val == "*" {
        all := true;
      }
      assert old(states[..key + 1]) == old(states[..key]) + [old(states[key])];
    }
    assert old(states[..states.Length]) == old(states[..]);
  }

  lemma LowerStar(s: string)
    ensures Lower(s) == "*" <==> s == "*"
  {
    if s != "" && s[1..] == "" {
      assert s == [s[0]];
    }
  }

  /** checkVmProvisionState returns no error. */
  predicate Accepts(cfg: Config, state: Option<string>) {
    cfg.allStates || state.None? || Lower(state.value) in cfg.states
  }

  method CheckVmProvisionState(cfg: Config, state: Option<string>) returns (ok: bool)
    ensures ok <==> Accepts(cfg, state)
  {
    ok := true;
    if cfg.allStates || state.None? {
      return;
    }
    var found := StringArrayContains(cfg.states, Lower(state.value));
    if !found {
      ok := false;
    }
  }

  /** The configuration after Init was given `configured`. */
  predicate InitialisedFrom(cfg: Config, configured: seq<string>) {
    cfg.states == LowerAll(configured) && (cfg.allStates <==> "*" in configured)
  }

  /** What a list of configured states means: the state is unknown, or "*" is configured, or an entry is equal up to
      case. */
  predicate Admits(configured: seq<string>, state: Option<string>) {
    state.None? || "*" in configured || exists entry <- configured :: EqualFold(entry, state.value)
  }

  /** Both steps together: accepted exactly when the list configured for repairs admits the state. */
  lemma AcceptedStates(cfg: Config, configured: seq<string>, state: Option<string>)
    requires InitialisedFrom(cfg, configured)
    ensures Accepts(cfg, state) <==> Admits(configured, state)
  {
    if state.Some? && Lower(state.value) in cfg.states {
      var i :| 0 <= i < |cfg.states| && cfg.states[i] == Lower(state.value);
      assert EqualFold(configured[i], state.value);
    }
    if state.Some? && exists entry <- configured :: EqualFold(entry, state.value) {
      var entry :| entry in configured && EqualFold(entry, state.value);
      var i :| 0 <= i < |configured| && configured[i] == entry;
      assert cfg.states[i] == Lower(state.value);
    }
  }
}
