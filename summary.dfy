/** The figures of the final summary line (files/parse_stream.js:256-272):
    the elapsed time and the first truthy value among each field's aliases. */
module Summary {
  import opened Wrappers
  import opened JsValues

  /** `Math.floor((data.duration_ms || 0) / 1000)`; None stands for NaN,
      which is what a truthy object gives. `true` counts as 1 ms. */
  function ElapsedSeconds(durationMs: JsValue): (r: Option<int>)
    ensures r.None? <==> Truthy(durationMs) && (durationMs.Str? || durationMs.Arr? || durationMs.Obj?)
    ensures !Truthy(durationMs) ==> r == Some(0)
  {
    match Or(durationMs, Zero)
    case Num(v, _) => Some((v / 1000.0).Floor)
    case Bool(_) => Some(0)
    case _ => None
  }

  /** `Xm Ys` when the minutes are positive, else `Ys`. The minutes round
      down; the seconds are JavaScript's `%`, which keeps the sign of the
      dividend. */
  function TimeText(secs: int): (r: string)
    ensures |r| >= 2 && r[|r| - 1] == 's'
  {
    var minutes := secs / 60;
    var seconds := if secs >= 0 then secs % 60 else -((-secs) % 60);
    if minutes > 0 then IntText(minutes) + "m " + IntText(seconds) + "s"
    else IntText(seconds) + "s"
  }

  function Elapsed(durationMs: JsValue): (r: string)
    ensures |r| >= 2 && r[|r| - 1] == 's'
    ensures !Truthy(durationMs) ==> r == "0s"
  {
    match ElapsedSeconds(durationMs)
    case Some(secs) => TimeText(secs)
    case None => "NaNs"
  }

  function Cost(data: JsValue): (r: JsValue)
    ensures Truthy(Get(data, "total_cost_usd")) ==> r == Get(data, "total_cost_usd")
    ensures !Truthy(Get(data, "total_cost_usd")) && Truthy(Get(data, "cost_usd")) ==> r == Get(data, "cost_usd")
    ensures !Truthy(Get(data, "total_cost_usd")) && !Truthy(Get(data, "cost_usd")) ==> r == Zero
  {
    Or(Or(Get(data, "total_cost_usd"), Get(data, "cost_usd")), Zero)
  }

  function InputTokens(data: JsValue): (r: JsValue)
    ensures Truthy(r) || r == Zero
  {
    Or(Or(Or(Or(Get(data, "total_input_tokens"), Get(data, "input_tokens")),
             Get(Get(data, "usage"), "input_tokens")),
          Get(data, "session_input_tokens")),
       Zero)
  }

  function OutputTokens(data: JsValue): (r: JsValue)
    ensures Truthy(r) || r == Zero
  {
    Or(Or(Or(Or(Get(data, "total_output_tokens"), Get(data, "output_tokens")),
             Get(Get(data, "usage"), "output_tokens")),
          Get(data, "session_output_tokens")),
       Zero)
  }

  /** `r` is the first truthy value of `vs`, or `fallback` when none is truthy. */
  ghost predicate IsFirstTruthy(vs: seq<JsValue>, fallback: JsValue, r: JsValue) {
    (exists i :: 0 <= i < |vs| && Truthy(vs[i]) && r == vs[i] && (forall j :: 0 <= j < i ==> !Truthy(vs[j])))
    || ((forall i :: 0 <= i < |vs| ==> !Truthy(vs[i])) && r == fallback)
  }

  /** A left-nested `a || b || c || d || z` yields the first truthy of
      a, b, c and d, else z. */
  lemma OrChain(a: JsValue, b: JsValue, c: JsValue, d: JsValue, z: JsValue)
    ensures IsFirstTruthy([a, b, c, d], z, Or(Or(Or(Or(a, b), c), d), z))
  {
    var vs := [a, b, c, d];
    var r := Or(Or(Or(Or(a, b), c), d), z);
    if Truthy(a) {
      assert r == vs[0];
    } else if Truthy(b) {
      assert r == vs[1];
    } else if Truthy(c) {
      assert r == vs[2];
    } else if Truthy(d) {
      assert r == vs[3];
    }
  }

  /** The input-token figure is the first truthy of total_input_tokens,
      input_tokens, usage.input_tokens and session_input_tokens, else 0;
      the output-token figure likewise with the output aliases. */
  lemma TokenAliases(data: JsValue)
    ensures IsFirstTruthy([Get(data, "total_input_tokens"), Get(data, "input_tokens"),
                           Get(Get(data, "usage"), "input_tokens"), Get(data, "session_input_tokens")],
                          Zero, InputTokens(data))
    ensures IsFirstTruthy([Get(data, "total_output_tokens"), Get(data, "output_tokens"),
                           Get(Get(data, "usage"), "output_tokens"), Get(data, "session_output_tokens")],
                          Zero, OutputTokens(data))
  {
    OrChain(Get(data, "total_input_tokens"), Get(data, "input_tokens"),
            Get(Get(data, "usage"), "input_tokens"), Get(data, "session_input_tokens"), Zero);
    OrChain(Get(data, "total_output_tokens"), Get(data, "output_tokens"),
            Get(Get(data, "usage"), "output_tokens"), Get(data, "session_output_tokens"), Zero);
  }

  /** The elapsed seconds of a numeric duration are its whole number of
      seconds, rounded down; a missing, null or zero duration counts as 0. */
  lemma ElapsedFloor(durationMs: JsValue)
    ensures durationMs.Num? ==>
              var k := ElapsedSeconds(durationMs).value;
              (k as real) * 1000.0 <= durationMs.value < (k as real + 1.0) * 1000.0
    ensures !Truthy(durationMs) ==> ElapsedSeconds(durationMs) == Some(0)
  {
    if durationMs.Num? && Truthy(durationMs) {
      var v := durationMs.value;
      var k := (v / 1000.0).Floor;
      assert k as real <= v / 1000.0 < k as real + 1.0;
    }
  }

  /** Whole seconds read as `Ys` below a minute and as `Xm Ys` from a minute
      on, with 60 * X + Y the seconds and Y below 60; negative seconds keep
      JavaScript's signed remainder and no minutes. */
  lemma TimeTextShape(secs: int)
    ensures 0 <= secs < 60 ==> TimeText(secs) == NatText(secs) + "s"
    ensures secs >= 60 ==>
              TimeText(secs) == NatText(secs / 60) + "m " + NatText(secs % 60) + "s"
              && 60 * (secs / 60) + secs % 60 == secs && secs / 60 > 0 && 0 <= secs % 60 < 60
    ensures secs < 0 ==>
              TimeText(secs) == IntText(-((-secs) % 60)) + "s" && -60 < -((-secs) % 60) <= 0
  {
    if 0 <= secs < 60 {
      assert secs / 60 == 0 && secs % 60 == secs;
    } else if secs >= 60 {
      assert secs / 60 >= 1;
      assert IntText(secs / 60) == NatText(secs / 60) && IntText(secs % 60) == NatText(secs % 60);
    } else {
      assert secs / 60 < 0;
      var s := -((-secs) % 60);
      assert 0 <= (-secs) % 60 < 60;
    }
  }

  /** 65000 ms reads as one minute five seconds. */
  lemma SixtyFiveSeconds()
    ensures Elapsed(Num(65000.0, "65000")) == "1m 5s"
  {
    assert (65000.0 / 1000.0).Floor == 65;
    assert NatText(1) == "1" && NatText(5) == "5";
  }
}
