/** Absolute file names on a host (internal/hostpaths, path/filepath). */
module HostPaths {
  import opened Segments

  /** The file an absolute name denotes. */
  function Locate(s: string): seq<string> { if s == "" then [] else Split(s[1..]) }

  /** The absolute name of a file. */
  function Render(p: seq<string>): string { "/" + Join(p) }

  function RuntimeDir(service: string): string { "/run/wardnet/" + service }

  function PathOf(dir: string, key: string): string { dir + "/" + key }

  /** A key under a service's directory: its name denotes the key's segments below the directory's. */
  lemma KeyUnder(service: string, key: string)
    ensures Locate(PathOf(RuntimeDir(service), key)) == Locate(RuntimeDir(service)) + Split(key)
    ensures Render(Locate(RuntimeDir(service)) + Split(key)) == PathOf(RuntimeDir(service), key)
  {
    var dir := RuntimeDir(service);
    assert PathOf(dir, key)[1..] == dir[1..] + "/" + key;
    SplitConcat(dir[1..], key);
    JoinSplit(dir[1..] + "/" + key);
    assert "/" + (dir[1..] + "/" + key) == PathOf(dir, key);
  }
}
