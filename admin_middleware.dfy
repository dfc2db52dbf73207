/**
 * The administrator gate of music_genius_bot/middlewares/admin.py: a
 * middleware that decides, from the sender's id and the configured
 * administrator ids alone, whether the wrapped handler runs.
 */
module AdminGate {

  /**
   * What a middleware did with an update: the handler ran and its result is
   * passed on (with the lines it logged), or the sender was
   * answered with a denial and the middleware returned `None`.
   */
  datatype Gated<R> = Called(result: R, log: seq<string>) | Denied(answer: string)

  const EmptyListError: string := "Список ADMIN_IDS пуст! Проверьте .env"
  const DenialText: string := "🔒 Доступ запрещён!"

  /**
   * `AdminMiddleware.__call__`, with `result` the value the handler returns
   * when it is awaited. An empty administrator list lets everyone through
   * and logs an error.
   */
  function Gate<R>(adminIds: seq<int>, uid: int, result: R): (g: Gated<R>)
    ensures adminIds == [] ==> g == Called(result, [EmptyListError])
    ensures adminIds != [] ==> (g.Called? <==> uid in adminIds)
    ensures adminIds != [] && g.Called? ==> g == Called(result, [])
    ensures g.Denied? ==> g.answer == DenialText
  {
    if adminIds == [] then Called(result, [EmptyListError])
    else if uid !in adminIds then Denied(DenialText)
    else Called(result, [])
  }

  /** The gate fails open: it refuses someone only when there is a list they are not on. */
  lemma GateFailsOpen<R>(adminIds: seq<int>, uid: int, result: R)
    ensures Gate(adminIds, uid, result).Denied? <==> adminIds != [] && uid !in adminIds
  {
  }

  /** Whether the handler runs depends on the sender's id and the list only, never on what the handler would return. */
  lemma GateIgnoresHandler<R>(adminIds: seq<int>, uid: int, r1: R, r2: R)
    ensures Gate(adminIds, uid, r1).Called? == Gate(adminIds, uid, r2).Called?
  {
  }
}
