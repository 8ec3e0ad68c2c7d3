/** The two configurations a task is prepared from, and orders of iteration over their maps. */
module Config {
  import opened Text

  const POT_BIN := "/usr/local/bin/pot"

  /** What Nomad says about the task: the fields of `drivers.TaskConfig` that the driver reads. */
  datatype TaskConfig = TaskConfig(
    id: string, env: map<string, string>, localDir: string, secretsDir: string, memoryMB: int)

  /** The `config` block of the job: the fields of the driver's own `TaskConfig` that it reads. */
  datatype DriverConfig = DriverConfig(
    image: string, pot: string, tag: string, command: string, args: seq<string>,
    portMap: map<string, string>, networkMode: string,
    mount: seq<string>, mountReadOnly: seq<string>, copy: seq<string>,
    extraHosts: seq<string>, attributes: seq<string>)

  /** Entries the source splits at a colon, indexing the second part without checking that it exists. */
  predicate Colons(entries: seq<string>) {
    forall e :: e in entries ==> !Free(e, ':')
  }

  predicate WellFormed(d: DriverConfig) {
    Colons(d.mount) && Colons(d.mountReadOnly) && Colons(d.copy) && Colons(d.attributes)
  }

  /** One of the orders in which a `range` loop may visit the keys of a map. */
  ghost predicate IsOrder<K(!new), V>(order: seq<K>, m: map<K, V>) {
    && (forall i, j :: 0 <= i < j < |order| ==> order[i] != order[j])
    && (forall k :: k in order <==> k in m)
  }
}
