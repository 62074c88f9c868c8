/** The GraphQL demo (src/components/skills/demos/GraphQLDemo.tsx): a
    query asks for three of six fields and the response lists just those. */
module GraphQLDemo {
  import opened Seqs
  import opened DemoCounter

  const Steps: nat := 4

  const QueryFields: seq<string> := ["name", "email", "avatar"]
  const AllFields: seq<string> := ["id", "name", "email", "avatar", "role", "createdAt"]

  /** `queryFields.includes(field)`. */
  predicate IsSelected(field: string) {
    field in QueryFields
  }

  /** The query asks only for existing fields, and three of the six are
      marked. */
  lemma SelectionWithinFields()
    ensures forall f :: f in QueryFields ==> f in AllFields
    ensures forall i :: 0 <= i < |AllFields| ==> (IsSelected(AllFields[i]) <==> 1 <= i <= 3)
    ensures Count(AllFields, IsSelected) == 3
  {
    assert AllFields[1..][1..][1..][1..] == ["role", "createdAt"];
  }

  /** The response body as the component renders it: each field followed
      by ", " unless it is the last. */
  function ResponseBody(fields: seq<string>): string {
    ResponseFrom(fields, 0)
  }

  function ResponseFrom(fields: seq<string>, i: nat): string
    decreases |fields| - i
  {
    if i >= |fields| then ""
    else fields[i] + (if i < |fields| - 1 then ", " else "") + ResponseFrom(fields, i + 1)
  }

  /** The fields joined by ", ": separators only between fields. */
  function JoinComma(fields: seq<string>): string
    decreases |fields|
  {
    if fields == [] then ""
    else if |fields| == 1 then fields[0]
    else fields[0] + ", " + JoinComma(fields[1..])
  }

  /** The rendered body is the comma-joined list of the fields, so there is
      no trailing separator. */
  lemma {:induction false} ResponseIsJoin(fields: seq<string>, i: nat)
    requires i <= |fields|
    ensures ResponseFrom(fields, i) == JoinComma(fields[i..])
    decreases |fields| - i
  {
    if i < |fields| {
      ResponseIsJoin(fields, i + 1);
      assert fields[i..][1..] == fields[i + 1..];
      if i == |fields| - 1 {
        assert fields[i + 1..] == [];
      }
    }
  }

  lemma QueryResponse()
    ensures ResponseBody(QueryFields) == "name, email, avatar"
  {
    ResponseIsJoin(QueryFields, 0);
    assert QueryFields[0..] == QueryFields;
    assert QueryFields[1..] == ["email", "avatar"];
    assert QueryFields[1..][1..] == ["avatar"];
  }

  /** Step label `i` (Query, Fetch, Filter, Return) is lit when the step is `i`. */
  predicate LabelLit(step: nat, i: nat) {
    step == i
  }

  lemma ExactlyOneLabel(step: nat)
    requires step < Steps
    ensures LabelLit(step, step)
    ensures forall i :: 0 <= i < Steps && LabelLit(step, i) ==> i == step
  {
  }

  class Demo {
    var step: nat
    var isPlaying: bool

    predicate Valid()
      reads this
    {
      step < Steps
    }

    constructor (playing: bool)
      ensures step == 0 && isPlaying == playing && Valid()
    {
      step, isPlaying := 0, playing;
    }

    method SetPlaying(playing: bool)
      modifies this
      ensures isPlaying == playing && step == old(step)
    {
      isPlaying := playing;
    }

    method Tick()
      requires Valid() && isPlaying
      modifies this
      ensures Valid() && isPlaying
      ensures step == Next(old(step), Steps)
    {
      step := Next(step, Steps);
    }
  }
}
