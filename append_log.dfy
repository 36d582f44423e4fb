/** The persistence pattern shared by both data files of the page
    (Mindset/app.py:31-59): a file is either missing or holds an ordered sequence of
    entries; every save reads the whole file (a missing file reads as the empty
    sequence), appends one entry and writes the whole file back.  The CSV and JSON
    encodings are not modelled: a file is the sequence of entries it decodes to. */
module AppendLog {
  import opened Wrappers

  /** What reading a file yields: its entries, or the empty baseline when it is
      missing. */
  function Existing<T>(file: Option<seq<T>>): seq<T> {
    match file
    case None => []
    case Some(entries) => entries
  }

  /** The contents written back by one save of `e`: the old entries, untouched and
      in their order, then `e`. */
  function Appended<T>(file: Option<seq<T>>, e: T): (r: seq<T>)
    ensures |r| == |Existing(file)| + 1
    ensures r[..|Existing(file)|] == Existing(file)
    ensures r[|Existing(file)|] == e
  {
    Existing(file) + [e]
  }

  /** The file after saving each of `es`, in order. */
  function SaveAll<T>(file: Option<seq<T>>, es: seq<T>): Option<seq<T>>
    decreases |es|
  {
    if |es| == 0 then file
    else SaveAll(Some(Appended(file, es[0])), es[1..])
  }

  /** Reading back after a series of saves yields the old entries followed by the
      saved ones, in call order, none merged or dropped. */
  lemma {:induction false} SaveAllExtends<T>(file: Option<seq<T>>, es: seq<T>)
    ensures Existing(SaveAll(file, es)) == Existing(file) + es
    decreases |es|
  {
    if |es| > 0 {
      var next := Some(Appended(file, es[0]));
      SaveAllExtends(next, es[1..]);
      calc {
        Existing(SaveAll(file, es));
        Existing(next) + es[1..];
        (Existing(file) + [es[0]]) + es[1..];
        { assert es == [es[0]] + es[1..]; }
        Existing(file) + es;
      }
    }
  }

  /** Starting from a missing file, N saves read back as exactly those N entries. */
  lemma {:induction false} SavesFromNothing<T>(es: seq<T>)
    ensures Existing(SaveAll(None, es)) == es
    ensures |Existing(SaveAll(None, es))| == |es|
  {
    SaveAllExtends(None, es);
  }

  /** The first save creates the file, and no save removes it. */
  lemma {:induction false} SaveCreatesFile<T>(file: Option<seq<T>>, es: seq<T>)
    requires |es| > 0
    ensures SaveAll(file, es).Some?
    decreases |es|
  {
    if |es| > 1 {
      SaveCreatesFile(Some(Appended(file, es[0])), es[1..]);
    }
  }

  /** Saving never disturbs what was already stored: the old entries stay a prefix. */
  lemma {:induction false} SavesKeepPrefix<T>(file: Option<seq<T>>, es: seq<T>)
    ensures |Existing(file)| <= |Existing(SaveAll(file, es))|
    ensures Existing(SaveAll(file, es))[..|Existing(file)|] == Existing(file)
  {
    SaveAllExtends(file, es);
    assert (Existing(file) + es)[..|Existing(file)|] == Existing(file);
  }
}
