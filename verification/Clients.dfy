/** The client store's vocabulary (`clients/clients.go`): process keys, documents, persisted states,
    and the three maps every store stands for. */
module Clients {
  import opened Wrappers

  datatype ProcessKey = ProcessKey(app: string, userId: string, processId: string)

  const RUNNING := "running"
  const STOPPED := "stopped"

  const EMPTY_DOC := "{}"

  datatype StoreError = NotFound | Unavailable

  datatype ProcessRef = ProcessRef(key: ProcessKey, state: string)

  /** What is stored: process documents, admin documents, and the last state of each process. */
  datatype Contents = Contents(
    processes: map<ProcessKey, string>, apps: map<string, string>, states: map<ProcessKey, string>)

  const NOTHING := Contents(map[], map[], map[])

  /** `ids` lists a user's processes in one application, each once. */
  ghost predicate ListsIds(ids: seq<string>, c: Contents, app: string, userId: string) {
    && (forall i, j :: 0 <= i < j < |ids| ==> ids[i] != ids[j])
    && (forall id :: id in ids <==> ProcessKey(app, userId, id) in c.processes)
  }

  /** `refs` lists the recorded processes of an application with their states, each once. */
  ghost predicate ListsRefs(refs: seq<ProcessRef>, c: Contents, app: string) {
    && (forall i, j :: 0 <= i < j < |refs| ==> refs[i].key != refs[j].key)
    && (forall i :: 0 <= i < |refs| ==>
         refs[i].key.app == app && refs[i].key in c.states && c.states[refs[i].key] == refs[i].state)
    && (forall k :: k in c.states && k.app == app ==> Listed(refs, k))
  }

  predicate Listed(refs: seq<ProcessRef>, k: ProcessKey) {
    exists i :: 0 <= i < |refs| && refs[i].key == k
  }
}
