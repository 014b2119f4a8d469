/** Concrete operators: `spell` and `accumulator` of vm/src/debug_module.cpp, as the iterative
    and instant operators of vm/include/module.hpp run them. */
module Operators {
  import opened Values
  import opened Packets
  import opened VmModel
  import opened OperatorTracking

  /** An iterative_operator_t made from spell's finit and fstep. Its state is null unless a
      call has been initialized and has not finished. */
  class SpellOperator {
    var state: Option<(string, nat)>

    function Running(): OpState
      reads this
      requires state.Some?
    {
      Spelling(state.value.0, state.value.1)
    }

    constructor ()
      ensures state.None?
    {
      state := None;
    }

    method Initialize(input: Value) returns (init: Init)
      modifies this
      ensures init == SpellInit(input)
      ensures init.Ready? ==> state.Some? && Running() == init.state
      ensures init.InitError? ==> state == old(state)
    {
      if !input.Map? {
        return InitError("spell: inputs should be map_t");
      }
      if "text" !in input.fields {
        return InitError("spell: text is missing");
      }
      var text := input.fields["text"];
      if !text.Str? {
        return InitError("spell: text should be string_t");
      }
      state := Some((text.s, 0));
      init := Ready(Spelling(text.s, 0));
    }

    method Step() returns (r: StepResult)
      requires state.Some?
      modifies this
      ensures r == SpellStep(old(state.value.0), old(state.value.1))
      ensures !Last(r) ==> state.Some? && Running() == r.next
      ensures r.OkOutput? && r.finish ==> state.None?
    {
      var (message, index) := state.value;
      if index > |message| {
        return ErrorOutput("Spell: Index overflow");
      }
      var next := if index < |message| then [message[index]] else "";
      state := Some((message, index + 1));
      r := OkOutput(TextMap(next), index + 1 == |message|, Spelling(message, index + 1));
      if r.finish {
        state := None;
      }
    }

    /** Stepping until finish or error, as the VM does, terminates and is a legal run; on a
        text that is not empty it is the text's characters. */
    method RunToEnd(input: Value) returns (init: Init, steps: seq<StepResult>)
      modifies this
      ensures init == SpellInit(input)
      ensures init.Ready? ==> steps != [] && LegalRun(init.state, steps) && Last(steps[|steps| - 1])
      ensures init.Ready? && init.state.msg != "" ==> |steps| == |init.state.msg|
      ensures init.Ready? && init.state.msg != "" ==> forall i: nat | i < |steps| ::
        steps[i] == OkOutput(TextMap([init.state.msg[i]]), i + 1 == |steps|, Spelling(init.state.msg, i + 1))
    {
      steps := [];
      init := Initialize(input);
      if init.InitError? {
        return;
      }
      var text := init.state.msg;
      var r := Step();
      steps := [r];
      assert StateAt(init.state, steps, 0) == Spelling(text, 0);
      while !Last(r)
        invariant steps != [] && steps[|steps| - 1] == r && LegalRun(Spelling(text, 0), steps)
        invariant !Last(r) ==> state.Some? && Running() == Spelling(text, |steps|)
        decreases !Last(r), |text| + 2 - |steps|
      {
        ghost var before := steps;
        SpellIsDetermined(text, before, |before| - 1);
        r := Step();
        steps := steps + [r];
        LegalNext(Spelling(text, 0), before, r);
      }
      SpellRun(text, steps);
    }
  }

  // ------------------------------------------------------------- accumulator

  datatype Accumulated = Accumulated(base: string, count: uint64)

  /** What `put` does to the component; the count is a 64-bit unsigned. */
  function Put(a: Accumulated, input: Value): (Accumulated, StepResult) {
    if !input.Map? then (a, ErrorOutput("accumulator.put: inputs should be map_t"))
    else if "s" !in input.fields then (a, ErrorOutput("accumulator.put: s is missing"))
    else if !input.fields["s"].Str? then (a, ErrorOutput("accumulator.put: s should be string_t"))
    else (Accumulated(a.base + input.fields["s"].s, (a.count + 1) % 0x1_0000_0000_0000_0000),
          OkOutput(Map(map[]), true, Opaque))
  }

  class Accumulator {
    var base: string
    var count: uint64

    function Now(): Accumulated
      reads this
    {
      Accumulated(base, count)
    }

    constructor (s: string)
      ensures Now() == Accumulated(s, 0)
    {
      base, count := s, 0;
    }

    method CallPut(input: Value) returns (r: StepResult)
      modifies this
      ensures (Now(), r) == Put(old(Now()), input)
      ensures if input.Map? && "s" in input.fields && input.fields["s"].Str? then
          && base == old(base) + input.fields["s"].s && count == (old(count) + 1) % 0x1_0000_0000_0000_0000
          && r == OkOutput(Map(map[]), true, Opaque)
        else base == old(base) && count == old(count) && r.ErrorOutput?
    {
      if !input.Map? {
        return ErrorOutput("accumulator.put: inputs should be map_t");
      }
      if "s" !in input.fields {
        return ErrorOutput("accumulator.put: s is missing");
      }
      if !input.fields["s"].Str? {
        return ErrorOutput("accumulator.put: s should be string_t");
      }
      base := base + input.fields["s"].s;
      count := (count + 1) % 0x1_0000_0000_0000_0000;
      r := OkOutput(Map(map[]), true, Opaque);
    }

    method CallGet() returns (r: StepResult)
      ensures r == OkOutput(Map(map["text" := Str(base)]), true, Opaque)
    {
      r := OkOutput(TextMap(base), true, Opaque);
    }

    method CallCount() returns (r: StepResult)
      ensures r == OkOutput(Map(map["count" := UInt(count)]), true, Opaque)
    {
      r := OkOutput(Map(map["count" := UInt(count)]), true, Opaque);
    }
  }

  function Puts(a: Accumulated, inputs: seq<Value>): Accumulated {
    if inputs == [] then a else Put(Puts(a, inputs[..|inputs| - 1]), inputs[|inputs| - 1]).0
  }

  predicate GoodPut(input: Value) {
    input.Map? && "s" in input.fields && input.fields["s"].Str?
  }

  /** The texts of the calls that are well-formed, and how many they are. */
  function Texts(inputs: seq<Value>): (string, nat) {
    if inputs == [] then ("", 0)
    else
      var (s, n) := Texts(inputs[..|inputs| - 1]);
      var input := inputs[|inputs| - 1];
      if GoodPut(input) then (s + input.fields["s"].s, n + 1) else (s, n)
  }

  /** After any calls of put, the component holds its base followed by their texts in order;
      calls that fail change nothing. */
  lemma {:induction false} PutsAccumulate(base: string, inputs: seq<Value>)
    ensures var a := Puts(Accumulated(base, 0), inputs);
      && a.base == base + Texts(inputs).0
      && a.count == Texts(inputs).1 % 0x1_0000_0000_0000_0000
  {
    if inputs == [] {
      assert base + "" == base;
    } else {
      var before, input := inputs[..|inputs| - 1], inputs[|inputs| - 1];
      PutsAccumulate(base, before);
      if GoodPut(input) {
        assert base + Texts(before).0 + input.fields["s"].s == base + (Texts(before).0 + input.fields["s"].s);
      }
    }
  }
}
