/** The log directory of one stream: byte files under their rotation numbers. */
module Storage {
  type Byte = b: int | 0 <= b < 256
  type Bytes = seq<Byte>

  // The current log and index have number 0, rotated ones 1, 2, ... from newest to oldest.
  datatype FileName = LogFile(index: nat) | IdxFile(index: nat)

  type Files = map<FileName, Bytes>

  // Renaming replaces the target; renaming a missing file fails without effect.
  function Renamed(files: Files, from: FileName, to: FileName): Files {
    if from in files then (files - {from})[to := files[from]] else files
  }

  class Disk {
    var files: Files
    // What the directory held after each effect so far.
    ghost var history: seq<Files>

    constructor ()
      ensures files == map[] && history == []
    {
      files := map[];
      history := [];
    }

    method Create(name: FileName)
      modifies this
      ensures files == old(files)[name := []] && history == old(history) + [files]
    {
      files := files[name := []];
      history := history + [files];
    }

    method Append(name: FileName, bs: Bytes)
      requires name in files
      modifies this
      ensures files == old(files)[name := old(files)[name] + bs] && history == old(history) + [files]
    {
      files := files[name := files[name] + bs];
      history := history + [files];
    }

    method Rename(from: FileName, to: FileName)
      requires from != to
      modifies this
      ensures files == Renamed(old(files), from, to) && history == old(history) + [files]
    {
      if from in files {
        files := (files - {from})[to := files[from]];
      }
      history := history + [files];
    }

    method Remove(name: FileName)
      modifies this
      ensures files == old(files) - {name} && history == old(history) + [files]
    {
      files := files - {name};
      history := history + [files];
    }
  }
}
