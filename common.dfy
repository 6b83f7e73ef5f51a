/** Result shapes shared by the whole model. */
module Common {

  datatype Option<+T> = None | Some(value: T)

  /** What a Python call does: it returns a value or raises an exception,
      whose message is kept. */
  datatype Raises<+T> = Returns(value: T) | Raised(error: string)

  /** What a call to the language model gives: its reply text, or the message
      of the exception the client library raised. */
  datatype LlmOutcome = Reply(text: string) | LlmFailed(error: string)

  /** The first value stored under `key` in an association list. */
  function Lookup<T>(table: seq<(string, T)>, key: string): (r: Option<T>)
    ensures r.None? <==> forall i :: 0 <= i < |table| ==> table[i].0 != key
    ensures r.Some? ==> exists i :: 0 <= i < |table| && table[i].0 == key && r == Some(table[i].1)
  {
    if table == [] then None
    else if table[0].0 == key then Some(table[0].1)
    else
      var r := Lookup(table[1..], key);
      assert forall i :: 1 <= i < |table| ==> table[i] == table[1..][i - 1];
      r
  }
}
