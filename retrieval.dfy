/** The retrieval step of the pipeline. Reading the corpus, embedding it and
    the query, and the nearest-neighbour search are one input outcome; what is
    modelled is how the search result becomes the context string, including
    Python's negative list indexing and the fall-back to an empty context. */
module Retrieval {
  import opened PyStr
  import opened Optional

  /** Neighbours asked of the index. */
  const K: nat := 2

  /** `Found(docs, indices)`: the corpus lines as `readlines` returned them
      (each with its line ending) and the first row of the search result.
      `Failed(message)`: the corpus read, the embedding or the search raised. */
  datatype RagOutcome = Found(docs: seq<string>, indices: seq<int>) | Failed(message: string)

  /** `docs[i]` is legal in Python for `-|docs| <= i < |docs|`. */
  predicate InPyRange(n: nat, i: int) {
    -(n as int) <= i < n
  }

  /** Python's `docs[i]`: a negative index counts from the end. */
  function PyAt(docs: seq<string>, i: int): string
    requires InPyRange(|docs|, i)
  {
    if i < 0 then docs[|docs| + i] else docs[i]
  }

  /** `[docs[i] for i in indices]`: `None` when some index raises `IndexError`. */
  function Lookup(docs: seq<string>, indices: seq<int>): Option<seq<string>>
    decreases |indices|
  {
    if indices == [] then Some([])
    else if !InPyRange(|docs|, indices[0]) then None
    else match Lookup(docs, indices[1..])
      case None => None
      case Some(rest) => Some([PyAt(docs, indices[0])] + rest)
  }

  /** The comprehension succeeds exactly when every index is in range, and
      then yields, position by position, the line each index selects. */
  lemma {:induction false} LookupSpec(docs: seq<string>, indices: seq<int>)
    ensures Lookup(docs, indices).Some? <==>
            forall k :: 0 <= k < |indices| ==> InPyRange(|docs|, indices[k])
    ensures Lookup(docs, indices).Some? ==>
            |Lookup(docs, indices).value| == |indices|
            && forall k :: 0 <= k < |indices| ==>
                 Lookup(docs, indices).value[k] == PyAt(docs, indices[k])
    decreases |indices|
  {
    if indices != [] {
      LookupSpec(docs, indices[1..]);
      if InPyRange(|docs|, indices[0]) && Lookup(docs, indices[1..]).Some? {
        var r := Lookup(docs, indices).value;
        forall k | 0 < k < |indices| ensures r[k] == PyAt(docs, indices[k]) {
          assert indices[1..][k - 1] == indices[k];
        }
      } else if InPyRange(|docs|, indices[0]) {
        var k :| 0 <= k < |indices[1..]| && !InPyRange(|docs|, indices[1..][k]);
        assert indices[k + 1] == indices[1..][k];
      }
    }
  }

  /** The context put into the prompt: the looked-up lines joined with a
      newline, or the empty string when anything in the step failed. */
  function Context(rag: RagOutcome): string
  {
    match rag
    case Failed(_) => ""
    case Found(docs, indices) =>
      match Lookup(docs, indices)
      case None => ""
      case Some(lines) => Join("\n", lines)
  }

  /** A failure anywhere in the step leaves the context empty. */
  lemma ContextOnFailure(rag: RagOutcome)
    requires rag.Failed? || exists k :: 0 <= k < |rag.indices| && !InPyRange(|rag.docs|, rag.indices[k])
    ensures Context(rag) == ""
  {
    if rag.Found? {
      LookupSpec(rag.docs, rag.indices);
    }
  }

  /** With the `K` neighbours the search returns, all in range, the context
      is the two selected lines joined by a newline. */
  lemma ContextOfTwo(docs: seq<string>, indices: seq<int>)
    requires |indices| == K
    requires InPyRange(|docs|, indices[0]) && InPyRange(|docs|, indices[1])
    ensures Context(Found(docs, indices)) == PyAt(docs, indices[0]) + "\n" + PyAt(docs, indices[1])
  {
    LookupSpec(docs, indices);
    var lines := Lookup(docs, indices).value;
    assert lines == [PyAt(docs, indices[0]), PyAt(docs, indices[1])];
    assert lines[1..] == [PyAt(docs, indices[1])];
    assert Join("\n", lines[1..]) == PyAt(docs, indices[1]);
  }

  /** A one-line corpus: the index reports a missing second neighbour as -1,
      which Python reads as the last line, so that line appears twice. */
  lemma SingleLineCorpus(line: string)
    ensures Context(Found([line], [0, -1])) == line + "\n" + line
  {
    ContextOfTwo([line], [0, -1]);
  }
}
