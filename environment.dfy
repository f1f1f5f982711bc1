/** `env(param)`: read a required variable from the process environment. */
module Environment {
  import opened Wrappers
  import opened JsString

  /** The text in front of the variable's name in the thrown error. */
  const MissingPrefix := "Missing environment variable: "

  /**
   * The value of `param` in `envMap`, or the error `env` throws. The
   * environment is a parameter; a variable that is unset and one set to the
   * empty string both fail, since both are falsy.
   */
  function Env(envMap: map<string, string>, param: string): (r: Result<string, string>)
    ensures r.Success? <==> param in envMap && envMap[param] != ""
    ensures r.Success? ==> r.value == envMap[param]
    ensures r.Failure? ==> r.error == MissingPrefix + param
  {
    var value := if param in envMap then Some(envMap[param]) else None;
    if !Truthy(value) then Failure(MissingPrefix + param)
    else Success(value.value)
  }

  /** The result depends only on the entry for `param`. */
  lemma EnvDependsOnlyOnEntry(e1: map<string, string>, e2: map<string, string>, param: string)
    requires param in e1 <==> param in e2
    requires param in e1 ==> e1[param] == e2[param]
    ensures Env(e1, param) == Env(e2, param)
  {
  }

  /** The error message tells which variable is missing. */
  lemma {:induction false} EnvErrorNamesParam(e1: map<string, string>, p1: string, e2: map<string, string>, p2: string)
    requires Env(e1, p1).Failure? && Env(e2, p2).Failure?
    requires Env(e1, p1).error == Env(e2, p2).error
    ensures p1 == p2
  {
    var m := Env(e1, p1).error;
    assert m[|MissingPrefix|..] == p1;
    assert m[|MissingPrefix|..] == p2;
  }
}
