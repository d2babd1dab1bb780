/**
 * The interactive prompts, seen as the lines the user types. A prompt with a validator
 * asks again after every rejected line; a prompt that runs out of lines is still waiting.
 */
module Prompt {

  datatype Answer = Answered(value: string, rest: seq<string>) | Waiting

  /** A prompt with a default: an empty line stands for the default. */
  function Ask(lines: seq<string>, default: string): (r: Answer)
    ensures r.Waiting? <==> lines == []
    ensures r.Answered? ==> r.rest == lines[1..] && r.value == (if lines[0] == "" then default else lines[0])
  {
    if lines == [] then Waiting
    else Answered(if lines[0] == "" then default else lines[0], lines[1..])
  }

  /** Line `i` is the first line the validator accepts. */
  predicate FirstAcceptedAt(lines: seq<string>, accept: string -> bool, i: int) {
    0 <= i < |lines| && accept(lines[i]) && forall j :: 0 <= j < i ==> !accept(lines[j])
  }

  /** A prompt with a validator: the first line the validator accepts, and what follows it. */
  function AskUntil(lines: seq<string>, accept: string -> bool): (r: Answer)
    ensures r.Waiting? <==> forall i :: 0 <= i < |lines| ==> !accept(lines[i])
    ensures r.Answered? ==> accept(r.value)
    ensures r.Answered? ==>
      (exists i :: FirstAcceptedAt(lines, accept, i) && r.value == lines[i] && r.rest == lines[i + 1..])
    decreases |lines|
  {
    if lines == [] then Waiting
    else if accept(lines[0]) then
      assert FirstAcceptedAt(lines, accept, 0);
      Answered(lines[0], lines[1..])
    else
      var r := AskUntil(lines[1..], accept);
      if r.Waiting? then
        assert forall i :: 0 <= i < |lines| ==> !accept(lines[i]) by {
          forall i | 0 <= i < |lines| ensures !accept(lines[i]) {
            if i > 0 { assert lines[i] == lines[1..][i - 1]; }
          }
        }
        r
      else
        var i :| FirstAcceptedAt(lines[1..], accept, i) && r.value == lines[1..][i] && r.rest == lines[1..][i + 1..];
        assert lines[1..][i + 1..] == lines[i + 2..];
        assert FirstAcceptedAt(lines, accept, i + 1) by {
          forall j | 0 <= j < i + 1 ensures !accept(lines[j]) {
            if j > 0 { assert lines[j] == lines[1..][j - 1]; }
          }
        }
        r
  }
}
