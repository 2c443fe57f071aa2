/** State-code to name conversions used by the device API (range-checked version). */
module McuConv {
  import opened Wrappers

  /** The six system-state names in firmware order. */
  const StateNames: seq<string> := ["ERROR", "RESET", "INIT", "IDLE", "TEST", "DAQ"]

  /** `_convert_pin_state`: 0 means no pin is set, anything else the user LED. */
  function ConvertPinState(state: int): (r: string)
    ensures r == "NONE" <==> state == 0
    ensures r != "NONE" ==> r == "LED_USER"
  {
    if state == 0 then "NONE" else "LED_USER"
  }

  /** `_convert_system_state`: the name of a code in [0, 6), ValueError otherwise. */
  function ConvertSystemState(state: int): (r: Result<string>)
    ensures r.Ok? <==> 0 <= state < 6
    ensures r.Err? ==> r.error == ValueError
    ensures r.Ok? ==> r.value == StateNames[state]
  {
    if !(0 <= state < |StateNames|) then Err(ValueError) else Ok(StateNames[state])
  }

  /** The named codes of the firmware's system states. */
  lemma SystemStateTable()
    ensures ConvertSystemState(0) == Ok("ERROR") && ConvertSystemState(1) == Ok("RESET")
    ensures ConvertSystemState(2) == Ok("INIT") && ConvertSystemState(3) == Ok("IDLE")
    ensures ConvertSystemState(4) == Ok("TEST") && ConvertSystemState(5) == Ok("DAQ")
  {
  }

  /** Distinct codes give distinct names, so the name identifies the state. */
  lemma SystemStateInjective(a: int, b: int)
    requires ConvertSystemState(a).Ok? && ConvertSystemState(b).Ok?
    requires ConvertSystemState(a) == ConvertSystemState(b)
    ensures a == b
  {
    assert StateNames[0] != StateNames[1] && StateNames[0] != StateNames[2];
    assert StateNames[0] != StateNames[3] && StateNames[0] != StateNames[4];
    assert StateNames[0] != StateNames[5] && StateNames[1] != StateNames[2];
    assert StateNames[1] != StateNames[3] && StateNames[1] != StateNames[4];
    assert StateNames[1] != StateNames[5] && StateNames[2] != StateNames[3];
    assert StateNames[2] != StateNames[4] && StateNames[2] != StateNames[5];
    assert StateNames[3] != StateNames[4] && StateNames[3] != StateNames[5];
    assert StateNames[4] != StateNames[5];
  }
}
