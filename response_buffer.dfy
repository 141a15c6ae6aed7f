/**
 * The response buffer that write_callback grows: `data` holds the `size`
 * characters received so far followed by a NUL, and every chunk libcurl
 * delivers is appended in place after a realloc.
 */
module ResponseBuffer {
  import opened CStrings

  class ResponseData {
    var data: array<char>
    var size: nat

    /** The allocation always has room for the body and one character after it. */
    predicate Valid()
      reads this
    {
      size < data.Length
    }

    /** The characters received so far. */
    function Body(): seq<char>
      reads this, data
      requires Valid()
    {
      data[..size]
    }

    /** The character after the body is a NUL, so the buffer reads as a C string. */
    predicate Terminated()
      reads this, data
      requires Valid()
    {
      data[size] == NUL
    }

    /** What cJSON_Parse and a "%s" conversion read from the buffer: its characters up to the first NUL. */
    function Text(): string
      reads this, data
    {
      CString(data[..])
    }

    /** `data = malloc(1); size = 0`: the single character is whatever malloc left there. */
    constructor (garbage: char)
      ensures Valid() && size == 0 && Body() == []
      ensures data.Length == 1 && data[0] == garbage && fresh(data)
    {
      data := new char[] [garbage];
      size := 0;
    }

    /** The start-up the reading code relies on: an empty body already followed by its NUL. */
    constructor Zeroed()
      ensures Valid() && size == 0 && Body() == [] && Terminated()
      ensures Text() == [] && fresh(data)
    {
      data := new char[] [NUL];
      size := 0;
      CStringOfTerminated([], []);
    }

    /**
     * write_callback with `contents` as the size * nmemb bytes delivered and
     * `allocOk` as the outcome of the realloc. A successful call appends the
     * chunk after the old body, re-terminates the buffer and reports the whole
     * chunk as taken; a failed realloc reports 0 and leaves the buffer as it was.
     */
    method Write(contents: seq<char>, allocOk: bool) returns (written: nat)
      requires Valid()
      modifies this
      ensures Valid()
      ensures allocOk ==> written == |contents| && size == old(size) + |contents|
      ensures allocOk ==> Body() == old(Body()) + contents && Terminated() && fresh(data)
      ensures allocOk && NUL !in old(Body()) + contents ==> Text() == Body()
      ensures !allocOk ==> written == 0 && unchanged(this) && Body() == old(Body())
    {
      if !allocOk {
        return 0;
      }
      var n := |contents|;
      // realloc to size + n + 1: the old body moves to the new block
      var grown := new char[size + n + 1];
      forall i | 0 <= i < size {
        grown[i] := data[i];
      }
      // memcpy(&data[size], contents, n)
      forall i | 0 <= i < n {
        grown[size + i] := contents[i];
      }
      grown[size + n] := NUL;
      data := grown;
      size := size + n;
      written := n;
      assert data[..] == Body() + [NUL] + [];
      if NUL !in Body() {
        CStringOfTerminated(Body(), []);
      }
    }
  }

  /**
   * A reply whose body is empty, when libcurl makes no call to write_callback:
   * the allocation handed on is the one character malloc returned, unwritten.
   * Unless that character happens to be a NUL, the block holds no terminator
   * at all, so a C-string read of it (cJSON_Parse, a "%s" conversion) runs
   * past the end of the allocation.
   */
  method EmptyReplyText(garbage: char) returns (terminated: bool, block: seq<char>)
    ensures block == [garbage]
    ensures terminated <==> NUL in block
    ensures !terminated ==> NUL !in block && garbage != NUL
  {
    var response := new ResponseData(garbage);
    terminated := response.Terminated();
    block := response.data[..];
  }

  /** The same empty reply read from a buffer that starts out terminated: always the empty text. */
  method EmptyReplyTextZeroed() returns (terminated: bool, text: string)
    ensures terminated && text == []
  {
    var response := new ResponseData.Zeroed();
    terminated := response.Terminated();
    text := response.Text();
  }
}
