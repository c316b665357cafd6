/** What the analyser finds on disk, and the issues it records. */
module Artifacts {

  /**
    The state of one file the analyser looks at. `Missing` is a path that does
    not exist (or, for a Dockerfile found by the glob, is not a regular file);
    `Unreadable` is a file whose reading or YAML parsing raised; `Loaded`
    carries its text or its parsed document.
   */
  datatype FileState<T> = Missing | Unreadable | Loaded(content: T)

  /** One entry of the `issues` list, tagged with the file it is about; a Prometheus parse failure names no file. */
  datatype Issue =
    | ComposeParseFailed(file: string)
    | DockerfileFailed(path: string)
    | PrometheusParseFailed
    | EnvFileFailed(file: string)

  /** Pairwise different names. */
  predicate Distinct<T(==)>(xs: seq<T>) {
    forall i, j :: 0 <= i < j < |xs| ==> xs[i] != xs[j]
  }
}
