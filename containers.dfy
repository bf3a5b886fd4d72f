/**
 * Containers as the log of operations recorded on them. The container
 * builder's methods each return a new container; here each appends one
 * operation. Directories, caches, secrets, files and services are handles
 * that are passed through unchanged.
 */
module Containers {
  import opened Wrappers

  /** `client.set_secret(name, value)`. */
  datatype Secret = Secret(name: string, value: string)

  /** `client.cache_volume(key)`. */
  datatype Cache = CacheVolume(key: string)

  /** `client.host().directory(path, exclude=..., include=...)`, or a directory
      handed in by the caller. */
  datatype Directory =
    | HostDirectory(path: string, excluded: Option<seq<string>>, included: Option<seq<string>>)
    | DirectoryHandle(id: nat)

  datatype File = FileHandle(id: nat)

  datatype Service = ServiceHandle(id: nat)

  datatype Op =
    | From(image: string)
    | Exec(args: seq<string>)
    | MountedCache(path: string, cache: Cache)
    | MountedDirectory(path: string, dir: Directory)
    | WithDirectory(path: string, dir: Directory)
    | Workdir(path: string)
    | EnvVariable(name: string, value: string)
    | SecretVariable(name: string, secret: Secret)
    | MountedFile(path: string, file: File)
    | ServiceBinding(alias: string, service: Service)
    | ExposedPort(port: int)

  datatype Container = Container(ops: seq<Op>)

  /** `client.container()`. */
  const Scratch: Container := Container([])

  /** Records one more operation. */
  function With(c: Container, op: Op): Container {
    Container(c.ops + [op])
  }

  /** Records several operations, in order. */
  function WithAll(c: Container, ops: seq<Op>): Container {
    Container(c.ops + ops)
  }

  /** The argument lists of the container's exec operations, in order. */
  function Execs(ops: seq<Op>): seq<seq<string>> {
    if ops == [] then []
    else (if ops[0].Exec? then [ops[0].args] else []) + Execs(ops[1..])
  }

  lemma {:induction false} ExecsAppend(a: seq<Op>, b: seq<Op>)
    ensures Execs(a + b) == Execs(a) + Execs(b)
  {
    if a != [] {
      ExecsAppend(a[1..], b);
      assert (a + b)[1..] == a[1..] + b;
    } else {
      assert a + b == b;
    }
  }

  /** Operations other than execs contribute no command. */
  lemma {:induction false} ExecsNone(ops: seq<Op>)
    requires forall i :: 0 <= i < |ops| ==> !ops[i].Exec?
    ensures Execs(ops) == []
  {
    if ops != [] {
      ExecsNone(ops[1..]);
    }
  }

  lemma ExecsSingle(op: Op)
    ensures Execs([op]) == if op.Exec? then [op.args] else []
  {
    assert [op][1..] == [];
  }
}
