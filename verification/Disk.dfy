/**
 A file system the updaters work on: a map from paths to contents. It keeps a
 trace of every state it has been in, because a process may be killed in any
 of them.
 */
module Disk {
  import opened Prelude

  type Path = string
  newtype Byte = x: int | 0 <= x < 256
  type Bytes = seq<Byte>
  type Files = map<Path, Bytes>

  function Get(files: Files, p: Path): Option<Bytes> {
    if p in files then Some(files[p]) else None
  }

  function Flatten(chunks: seq<Bytes>): Bytes {
    if chunks == [] then [] else Flatten(chunks[..|chunks| - 1]) + chunks[|chunks| - 1]
  }

  class FileSystem {
    var files: Files
    ghost var trace: seq<Files>

    constructor (files: Files)
      ensures this.files == files && trace == [files]
    {
      this.files := files;
      trace := [files];
    }

    /** Create or overwrite p. */
    method Write(p: Path, bytes: Bytes)
      modifies this
      ensures files == old(files)[p := bytes] && trace == old(trace) + [files]
    {
      files := files[p := bytes];
      trace := trace + [files];
    }

    /** Append one chunk to p. */
    method Append(p: Path, chunk: Bytes)
      requires p in files
      modifies this
      ensures files == old(files)[p := old(files)[p] + chunk] && trace == old(trace) + [files]
    {
      Write(p, files[p] + chunk);
    }

    method Unlink(p: Path)
      modifies this
      ensures files == old(files) - {p} && trace == old(trace) + [files]
    {
      files := files - {p};
      trace := trace + [files];
    }

    /** `os.replace`: one step, or nothing at all. */
    method Replace(src: Path, dest: Path)
      requires src in files && src != dest
      modifies this
      ensures files == (old(files) - {src})[dest := old(files)[src]] && trace == old(trace) + [files]
    {
      files := (files - {src})[dest := files[src]];
      trace := trace + [files];
    }
  }
}
