/** Pagination cursors: the sort key's parts joined by a bar, before and after transport encoding. */
module Cursor {

  const BAR := '|'

  /** `"|".join(parts)` */
  function Join(parts: seq<string>): string {
    if parts == [] then ""
    else if |parts| == 1 then parts[0]
    else parts[0] + [BAR] + Join(parts[1..])
  }

  /** `raw.split("|")` */
  function Split(raw: string): (parts: seq<string>)
    ensures parts != []
    ensures forall p | p in parts :: BAR !in p
  {
    if raw == "" then [""]
    else
      var rest := Split(raw[1..]);
      if raw[0] == BAR then [""] + rest
      else [[raw[0]] + rest[0]] + rest[1..]
  }

  /** `raw.partition("|")`, without the separator. */
  function Partition(raw: string): (string, string) {
    if raw == "" then ("", "")
    else if raw[0] == BAR then ("", raw[1..])
    else var (l, r) := Partition(raw[1..]); ([raw[0]] + l, r)
  }

  lemma {:induction false} SplitPlain(part: string)
    requires BAR !in part
    ensures Split(part) == [part]
  {
    if part != "" {
      SplitPlain(part[1..]);
      assert [part[0]] + part[1..] == part;
    }
  }

  lemma {:induction false} SplitFirst(part: string, rest: string)
    requires BAR !in part
    ensures Split(part + [BAR] + rest) == [part] + Split(rest)
  {
    var raw := part + [BAR] + rest;
    if part == "" {
      assert raw == [BAR] + rest && raw[1..] == rest;
    } else {
      SplitFirst(part[1..], rest);
      assert raw[1..] == part[1..] + [BAR] + rest;
      assert [part[0]] + part[1..] == part;
    }
  }

  /** A joined cursor decodes to its parts exactly when none of them holds the separator. */
  lemma {:induction false} SplitUndoesJoin(parts: seq<string>)
    requires parts != []
    ensures Split(Join(parts)) == parts <==> forall p | p in parts :: BAR !in p
  {
    if forall p | p in parts :: BAR !in p {
      assert parts[0] in parts;
      if |parts| == 1 {
        SplitPlain(parts[0]);
        assert parts == [parts[0]];
      } else {
        SplitUndoesJoin(parts[1..]);
        SplitFirst(parts[0], Join(parts[1..]));
        assert parts == [parts[0]] + parts[1..];
      }
    }
  }

  /** The two-part cursors of the cost and alert lists only need a clean first part. */
  lemma {:induction false} PartitionUndoesJoin(first: string, second: string)
    ensures Partition(Join([first, second])) == (first, second) <==> BAR !in first
  {
    assert Join([first, second]) == first + [BAR] + second;
    PartitionFirst(first, second);
  }

  lemma {:induction false} PartitionFirst(first: string, second: string)
    ensures Partition(first + [BAR] + second) == (first, second) <==> BAR !in first
  {
    var raw := first + [BAR] + second;
    if first == "" {
      assert raw == [BAR] + second && raw[1..] == second;
    } else if first[0] == BAR {
      assert raw[0] == BAR;
    } else {
      PartitionFirst(first[1..], second);
      assert raw[1..] == first[1..] + [BAR] + second;
      assert first == [first[0]] + first[1..];
    }
  }
}
