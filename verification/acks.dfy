/** The `complete_task` and `delete_task` tools: one request upstream, whose
    response is thrown away, then a fixed acknowledgement. The project and
    task ids only shape the request URL, which is not modelled, so the
    model's input is just what the request produced. */
module Acks {
  import opened Wrappers
  import opened Json

  /** An HTTP response as delivered: httpx raises for transport failures
      only, so any status (an error status included) arrives here. */
  datatype Response = Response(status: int, body: string)

  /** `{"message": text}`. */
  function Message(text: string): Value {
    Obj(map["message" := Str(text)])
  }

  /** The result of `complete_task`, given what the POST produced. */
  function CompleteTask(sent: Result<Response, Fault>): (r: Result<Value, Fault>)
    ensures r.Success? <==> sent.Success?
    ensures sent.Failure? ==> r.error == sent.error
    ensures r.Success? ==> r.value == Message("Task completed")
  {
    var _ :- sent;
    Success(Message("Task completed"))
  }

  /** The result of `delete_task`, given what the DELETE produced. */
  function DeleteTask(sent: Result<Response, Fault>): (r: Result<Value, Fault>)
    ensures r.Success? <==> sent.Success?
    ensures sent.Failure? ==> r.error == sent.error
    ensures r.Success? ==> r.value == Message("Task deleted")
  {
    var _ :- sent;
    Success(Message("Task deleted"))
  }

  /** Neither acknowledgement depends on the status or the body of the
      response, an empty body or an error status included. */
  lemma AcknowledgementIgnoresResponse(x: Response, y: Response)
    ensures CompleteTask(Success(x)) == CompleteTask(Success(y))
    ensures DeleteTask(Success(x)) == DeleteTask(Success(y))
    ensures CompleteTask(Success(x)) != DeleteTask(Success(y))
  {
    assert Message("Task completed").fields["message"] != Message("Task deleted").fields["message"];
  }
}
