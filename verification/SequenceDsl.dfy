/** The parsed service function: an ordered list of typed sequences. */
module SequenceDsl {
  import opened Text

  datatype Option<+T> = None | Some(value: T)

  datatype Kind = Get | Post | Put | Delete | Empty | Exists | State | Auth | Call | Publish | Response

  datatype Result = Result(typ: string, name: string, wrapper: string)

  datatype Arg = Arg(source: string, field: string, literal: string)

  datatype Sequence = Sequence(
    kind: Kind,
    package: string,
    model: string,
    args: seq<Arg>,
    result: Option<Result>,
    target: string,
    diagramID: string,
    inputs: map<string, string>,
    transition: string,
    topic: string,
    options: map<string, string>,
    action: string,
    resource: string,
    fields: map<string, string>,
    message: string,
    errStatus: int,
    suppressWarn: bool)

  const Blank: Sequence :=
    Sequence(Response, "", "", [], None, "", "", map[], "", "", map[], "", "", map[], "", 0, false)

  /** "Course.FindByID" is the model "Course" and the method "FindByID". */
  function ModelName(model: string): string {
    RootVar(model)
  }

  function MethodName(model: string): string {
    AfterFirst(model, '.')
  }

  predicate IsWrite(s: Sequence) {
    s.kind in {Post, Put, Delete}
  }

  predicate HasWrite(seqs: seq<Sequence>) {
    exists i :: 0 <= i < |seqs| && IsWrite(seqs[i])
  }

  predicate HasQuery(inputs: map<string, string>) {
    exists k :: k in inputs && inputs[k] == "query"
  }

  /** An input value that names no variable of the function: request field, user field, literal, query. */
  predicate IsSourceValue(val: string) {
    HasPrefix(val, "request.") || HasPrefix(val, "currentUser.") || IsLiteral(val) || val == "query"
  }

  /** The variables a sequence refers to. */
  function UsedBy(s: Sequence): set<string> {
    (if s.target != "" then {RootVar(s.target)} else {})
    + (set k | k in s.inputs && !IsSourceValue(s.inputs[k]) :: RootVar(s.inputs[k]))
    + (set k | k in s.fields && !IsLiteral(s.fields[k]) :: RootVar(s.fields[k]))
  }

  function UsedVars(seqs: seq<Sequence>): set<string> {
    if seqs == [] then {} else UsedBy(seqs[0]) + UsedVars(seqs[1..])
  }

  lemma {:induction false} UsedVarsContains(seqs: seq<Sequence>, i: nat)
    requires i < |seqs|
    ensures UsedBy(seqs[i]) <= UsedVars(seqs)
  {
    if i > 0 {
      var rest := seqs[1..];
      UsedVarsContains(rest, i - 1);
      assert rest[i - 1] == seqs[i];
    }
  }

  /** Names bound by the results of a list of sequences. */
  function Bound(seqs: seq<Sequence>): set<string> {
    set i | 0 <= i < |seqs| && seqs[i].result.Some? :: seqs[i].result.value.name
  }
}
