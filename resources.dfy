/** The check, before the worker is launched, that its executable and its
    `_internal` support folder exist under a base path. The file system, path
    joining and the platform are inputs: `present` is the set of paths that
    exist, `join` is `path.join`, and `isWindows` is `process.platform === 'win32'`. */
module Resources {

  /** What `validateResources` returns: `exists` (a reserved word in Dafny,
      hence `allExist`) and the labels of the missing resources. */
  datatype Validation = Validation(allExist: bool, missing: seq<string>)

  const InternalFolder: string := "_internal"
  const InternalLabel: string := "_internal folder"

  /** The worker executable's file name on the platform. */
  function WorkerName(isWindows: bool): string {
    if isWindows then "worker.exe" else "worker"
  }

  method ValidateResources(basePath: string, isWindows: bool, present: set<string>,
                           join: (string, string) -> string)
    returns (r: Validation)
    ensures r.allExist <==> r.missing == []
    ensures isWindows ==> ("worker.exe" in r.missing <==> join(basePath, "worker.exe") !in present)
    ensures !isWindows ==> ("worker" in r.missing <==> join(basePath, "worker") !in present)
    ensures InternalLabel in r.missing <==> join(basePath, InternalFolder) !in present
    ensures forall m :: m in r.missing ==> m == WorkerName(isWindows) || m == InternalLabel
    ensures |r.missing| <= 2
    ensures |r.missing| == 2 ==> r.missing == [WorkerName(isWindows), InternalLabel]
    ensures (join(basePath, WorkerName(isWindows)) !in present && join(basePath, InternalFolder) !in present)
            ==> |r.missing| == 2
    ensures (join(basePath, WorkerName(isWindows)) in present && join(basePath, InternalFolder) in present)
            ==> r == Validation(true, [])
  {
    var workerName := WorkerName(isWindows);
    var workerExe := join(basePath, workerName);
    var internalFolder := join(basePath, InternalFolder);

    var missing: seq<string> := [];
    if workerExe !in present {
      missing := missing + [workerName];
    }
    if internalFolder !in present {
      missing := missing + [InternalLabel];
    }
    r := Validation(|missing| == 0, missing);
  }
}
