/** The part of the file system the slicer wrappers touch: files by path and
    the directories `mkdtemp` creates. Whether a write fails is a parameter;
    everything else follows from the current contents. */
module Workspace {
  import opened Common

  /** What running an external slicer did: it either exited normally (having
      written its G-code file, or not) or failed with an error message. */
  datatype ExecOutcome = Ran(gcode: Option<string>) | Failed(message: string)

  /** The files of `files` that do not lie under directory `dir`. */
  function Outside(files: map<string, string>, dir: string): map<string, string>
  {
    map p | p in files && !(dir + "/" <= p) :: files[p]
  }

  /** Writing a path and then removing it leaves what removing alone leaves. */
  lemma UpdateThenRemove(m: map<string, string>, k: string, v: string, s: set<string>)
    requires k in s
    ensures m[k := v] - s == m - s
  {
  }

  /** Removing some of a set of paths and then all of them leaves what
      removing all of them leaves. */
  lemma RemoveThenRemove(m: map<string, string>, a: set<string>, b: set<string>)
    requires a <= b
    ensures (m - a) - b == m - b
  {
  }

  /** A file written under `dir` is gone once `dir` is removed. */
  lemma UpdateThenOutside(m: map<string, string>, k: string, v: string, dir: string)
    requires dir + "/" <= k
    ensures Outside(m[k := v], dir) == Outside(m, dir)
  {
  }

  class FileSystem {
    var files: map<string, string>
    var dirs: set<string>

    constructor (files0: map<string, string>, dirs0: set<string>)
      ensures files == files0 && dirs == dirs0
    {
      files := files0;
      dirs := dirs0;
    }

    /** `fs.writeFile`; `fails` stands for an I/O error. */
    method WriteFile(path: string, content: string, fails: bool) returns (ok: bool)
      modifies this
      ensures ok == !fails
      ensures ok ==> files == old(files)[path := content]
      ensures !ok ==> files == old(files)
      ensures dirs == old(dirs)
    {
      ok := !fails;
      if ok {
        files := files[path := content];
      }
    }

    /** `fs.readFile`: fails exactly when the file does not exist. */
    method ReadFile(path: string) returns (r: Result<string, string>)
      ensures path in files ==> r == Ok(files[path])
      ensures path !in files ==> r.Err?
    {
      if path in files {
        r := Ok(files[path]);
      } else {
        r := Err("ENOENT: " + path);
      }
    }

    /** `fs.unlink`: fails when the file does not exist, or when `fails`,
        which stands for any other error (a permission or a busy file); a
        failed unlink leaves the file where it is. */
    method Unlink(path: string, fails: bool) returns (ok: bool)
      modifies this
      ensures ok == (path in old(files) && !fails)
      ensures fails ==> files == old(files)
      ensures !fails ==> files == old(files) - {path}
      ensures dirs == old(dirs)
    {
      ok := path in files && !fails;
      if !fails {
        files := files - {path};
      }
    }

    /** `fs.mkdtemp` with the generated name given: it fails when that
        directory already exists. */
    method MakeTempDir(candidate: string) returns (r: Result<string, string>)
      modifies this
      ensures candidate in old(dirs) ==> r.Err? && dirs == old(dirs)
      ensures candidate !in old(dirs) ==> r == Ok(candidate) && dirs == old(dirs) + {candidate}
      ensures files == old(files)
    {
      if candidate in dirs {
        r := Err("EEXIST: " + candidate);
      } else {
        dirs := dirs + {candidate};
        r := Ok(candidate);
      }
    }

    /** `fs.rm(dir, { recursive: true, force: true })`: removes the directory
        and everything under it; a missing directory is no error, and
        `fails` stands for any other error, which leaves everything in
        place. */
    method RemoveTree(dir: string, fails: bool) returns (ok: bool)
      modifies this
      ensures ok == !fails
      ensures !fails ==> files == Outside(old(files), dir)
      ensures !fails ==> dirs == set d | d in old(dirs) && d != dir && !(dir + "/" <= d)
      ensures fails ==> files == old(files) && dirs == old(dirs)
    {
      ok := !fails;
      if !fails {
        files := Outside(files, dir);
        dirs := set d | d in dirs && d != dir && !(dir + "/" <= d);
      }
    }
  }
}
