/**
 * The text of logs.json and the in-place append StopLog performs on it: the
 * last byte is cut off, a comma goes in when what is left is longer than ten
 * bytes, then a newline, the entry and a closing bracket.
 */
module LogsFile {
  import opened Entries

  /** Bytes the truncated file must exceed before a separating comma is written. */
  const CommaThreshold := 10

  /** The file after the truncate-then-append edit with the serialized entry `entry`. */
  function AppendedText(text: string, entry: string): (r: string)
    requires text != []
    ensures |r| == |text| + (if |text| - 1 > CommaThreshold then 1 else 0) + |entry| + 1
    ensures r[..|text| - 1] == text[..|text| - 1]
    ensures r[|text| - 1] == ',' <==> |text| - 1 > CommaThreshold
    ensures var k := |r| - |entry| - 2; r[k] == '\n' && r[k + 1..|r| - 1] == entry
    ensures r[|r| - 1] == ']'
  {
    var kept := text[..|text| - 1];
    var r := kept + (if |kept| > CommaThreshold then "," else "") + "\n" + entry + "]";
    assert r[|text| - 1] == (if |kept| > CommaThreshold then ',' else '\n');
    r
  }

  /** The elements of the array as the appends lay them out, each after a newline, comma-separated. */
  function Items(es: seq<Log>, enc: Log -> string): string
    decreases |es|
  {
    if es == [] then ""
    else
      var init := es[..|es| - 1];
      Items(init, enc) + (if init == [] then "" else ",") + "\n" + enc(es[|es| - 1])
  }

  /** The text of logs.json holding `es`, as written from the initial `[]` by successive appends. */
  function CollectionText(es: seq<Log>, enc: Log -> string): string
  {
    "[" + Items(es, enc) + "]"
  }

  /** Every serialized entry already in the file is at least nine bytes long. */
  predicate LongEntries(es: seq<Log>, enc: Log -> string)
  {
    forall i :: 0 <= i < |es| ==> |enc(es[i])| > 8
  }

  /** The file `json.dumps([])` creates, with no entry yet. */
  lemma EmptyCollection(enc: Log -> string)
    ensures CollectionText([], enc) == "[]"
  {
  }

  /** Appending to the initial empty array writes no comma. */
  lemma AppendToEmptyArray(entry: string)
    ensures AppendedText("[]", entry) == "[\n" + entry + "]"
  {
  }

  /**
   * The in-place edit keeps the file a well-formed array: appending the
   * serialized entry to the text of `es` gives the text of `es + [e]`.
   */
  lemma {:induction false} AppendExtendsCollection(es: seq<Log>, e: Log, enc: Log -> string)
    requires LongEntries(es, enc)
    ensures AppendedText(CollectionText(es, enc), enc(e)) == CollectionText(es + [e], enc)
  {
    var text := CollectionText(es, enc);
    var kept := text[..|text| - 1];
    assert kept == "[" + Items(es, enc);
    assert (es + [e])[..|es|] == es;
    if es != [] {
      assert |enc(es[|es| - 1])| > 8;
      assert |Items(es, enc)| > |enc(es[|es| - 1])|;
    }
    assert |kept| > CommaThreshold <==> es != [];
  }
}
