/** The thread store the runtime adapter writes to (`appendThreadMessage`, `setThreadMessages`,
    `renameThread`). Its implementation is not part of this model; it is kept minimal: a map
    from thread id to a title and a sequence of UI messages, where each operation changes only
    the named thread. */
module ThreadStore {

  datatype Thread<U> = Thread(title: string, messages: seq<U>)

  type Store<U> = map<string, Thread<U>>

  /** `appendThreadMessage(id, m)`: `m` becomes the last message of thread `id`. */
  function Append<U>(store: Store<U>, id: string, m: U): (r: Store<U>)
    requires id in store
    ensures r.Keys == store.Keys
    ensures r[id].title == store[id].title
    ensures |r[id].messages| == |store[id].messages| + 1
    ensures r[id].messages[..|store[id].messages|] == store[id].messages
    ensures r[id].messages[|store[id].messages|] == m
    ensures forall t :: t in store && t != id ==> r[t] == store[t]
  {
    store[id := store[id].(messages := store[id].messages + [m])]
  }

  /** `setThreadMessages(id, ms)`: thread `id` holds exactly `ms`. */
  function SetMessages<U>(store: Store<U>, id: string, ms: seq<U>): (r: Store<U>)
    requires id in store
    ensures r.Keys == store.Keys
    ensures r[id] == Thread(store[id].title, ms)
    ensures forall t :: t in store && t != id ==> r[t] == store[t]
  {
    store[id := store[id].(messages := ms)]
  }

  /** `renameThread(id, title)`: thread `id` gets the new title and keeps its messages. */
  function Rename<U>(store: Store<U>, id: string, title: string): (r: Store<U>)
    requires id in store
    ensures r.Keys == store.Keys
    ensures r[id] == Thread(title, store[id].messages)
    ensures forall t :: t in store && t != id ==> r[t] == store[t]
  {
    store[id := store[id].(title := title)]
  }
}
