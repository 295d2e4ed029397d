/**
 The foreign client-go calls, seen only through their outcomes. A Go call that
 returns `(value, error)` becomes an Outcome: Ok with the value when the error
 is nil, Err with the error's message otherwise.
 */
module ClientGo {

  datatype Outcome<T> = Ok(value: T) | Err(error: string)

  /** An opaque rest.Config: where the API server is and how to authenticate. */
  datatype RestConfig = RestConfig(handle: nat)

  /** An opaque kubernetes.Clientset built from a RestConfig. */
  datatype Clientset = Clientset(handle: nat)
}

/**
 The reference meaning of a chain of credential strategies: the first one that
 succeeds wins; when every one fails, the last failure is what is reported.
 */
module Fallback {
  import opened ClientGo

  function FirstSuccess<T>(attempts: seq<Outcome<T>>): (r: Outcome<T>)
    requires |attempts| > 0
    ensures r.Ok? <==> exists i :: 0 <= i < |attempts| && attempts[i].Ok?
    ensures r.Ok? ==> exists i :: 0 <= i < |attempts| && attempts[i] == r &&
                                  forall j :: 0 <= j < i ==> attempts[j].Err?
    ensures r.Err? ==> r == attempts[|attempts| - 1]
    decreases |attempts|
  {
    if attempts[0].Ok? || |attempts| == 1 then attempts[0]
    else
      var rest := attempts[1..];
      assert forall i :: 0 <= i < |rest| ==> rest[i] == attempts[i + 1];
      FirstSuccess(rest)
  }
}
