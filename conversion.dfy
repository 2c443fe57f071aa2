/** The older state-code conversions: no range check, Python list indexing. */
module Conversion {
  import opened Wrappers
  import McuConv
  import PyStr

  /** `_convert_pin_state`. */
  function ConvertPinState(state: int): (r: string)
    ensures r == "NONE" <==> state == 0
    ensures r != "NONE" ==> r == "LED_USER"
  {
    if state == 0 then "NONE" else "LED_USER"
  }

  /** `_convert_system_state`: `state_name[state]`, so negative codes count from
      the end and anything outside [-6, 6) raises IndexError. */
  function ConvertSystemState(state: int): (r: Result<string>)
    ensures r.Ok? <==> -6 <= state < 6
    ensures r.Err? ==> r.error == IndexError
    ensures r.Ok? ==> r.value == McuConv.StateNames[if state < 0 then state + 6 else state]
  {
    PyStr.PyIndex(McuConv.StateNames, state)
  }

  /** Both pin converters agree on every input. */
  lemma PinStateAgrees(state: int)
    ensures ConvertPinState(state) == McuConv.ConvertPinState(state)
  {
  }

  /** On [0, 6) the old converter agrees with the range-checked one; elsewhere
      the new one raises ValueError while the old one wraps negative codes. */
  lemma SystemStateAgrees(state: int)
    ensures 0 <= state < 6 ==> ConvertSystemState(state) == McuConv.ConvertSystemState(state)
    ensures -6 <= state < 0 ==> ConvertSystemState(state).Ok? && McuConv.ConvertSystemState(state) == Err(ValueError)
  {
  }

  /** The negative wrap-around: -1 names the last state and -6 the first. */
  lemma NegativeStates()
    ensures ConvertSystemState(-1) == Ok("DAQ") && ConvertSystemState(-6) == Ok("ERROR")
    ensures ConvertSystemState(6) == Err(IndexError) && ConvertSystemState(-7) == Err(IndexError)
  {
  }
}
