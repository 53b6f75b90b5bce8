/**
 * Compact JSON text (separators `,` and `:`) for discovery output, for
 * values that need no escaping: every value is written verbatim between
 * double quotes.
 */
module Json {
  import opened Text

  /** A discovery record: its fixed keys with their values, in insertion order. */
  type Record = seq<(string, string)>

  function Field(f: (string, string)): string {
    "\"" + f.0 + "\":\"" + f.1 + "\""
  }

  function FieldsOf(r: Record): seq<string> {
    if r == [] then [] else [Field(r[0])] + FieldsOf(r[1..])
  }

  /** `{"k1":"v1","k2":"v2"}`. */
  function RecordText(r: Record): string {
    "{" + Join(FieldsOf(r), ",") + "}"
  }

  function RecordsText(rs: seq<Record>): seq<string> {
    if rs == [] then [] else [RecordText(rs[0])] + RecordsText(rs[1..])
  }

  /** `dumps({"data": rs}, separators=(',', ':'))`. */
  function DataText(rs: seq<Record>): string {
    "{\"data\":[" + Join(RecordsText(rs), ",") + "]}"
  }

  /** No records give `{"data":[]}`. */
  lemma EmptyData()
    ensures DataText([]) == "{\"data\":[]}"
  {
  }

  lemma {:induction false} RecordsTextAppend(a: seq<Record>, b: seq<Record>)
    ensures RecordsText(a + b) == RecordsText(a) + RecordsText(b)
  {
    if a != [] {
      assert (a + b)[1..] == a[1..] + b;
      RecordsTextAppend(a[1..], b);
    } else {
      assert a + b == b;
    }
  }

  /** Every record text ends in its closing brace, and so does their join. */
  lemma {:induction false} DataEndsWithBrace(rs: seq<Record>)
    requires rs != []
    ensures |RecordsText(rs)| == |rs|
    ensures var j := Join(RecordsText(rs), ","); |j| > 0 && j[|j| - 1] == '}'
  {
    RecordsLength(rs);
    forall i | 0 <= i < |RecordsText(rs)|
      ensures |RecordsText(rs)[i]| > 0 && RecordsText(rs)[i][|RecordsText(rs)[i]| - 1] == '}'
    {
      RecordsAt(rs, i);
    }
    JoinEndsWith(RecordsText(rs), ",", '}');
  }

  lemma {:induction false} RecordsLength(rs: seq<Record>)
    ensures |RecordsText(rs)| == |rs|
  {
    if rs != [] {
      RecordsLength(rs[1..]);
    }
  }

  lemma {:induction false} RecordsAt(rs: seq<Record>, i: nat)
    requires i < |rs|
    ensures |RecordsText(rs)| == |rs| && RecordsText(rs)[i] == RecordText(rs[i])
  {
    RecordsLength(rs);
    if i > 0 {
      RecordsAt(rs[1..], i - 1);
    }
  }
}
