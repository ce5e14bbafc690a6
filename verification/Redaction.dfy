/** Secrets are kept out of the log: replacement in text, and in nested values. */
module Redaction {
  import opened Models

  const MASK := "***"
  const MAX_DEPTH := 10

  // ------------------------------------------------------------------ text

  /** `str.replace(secret, MASK)`: left to right, without overlap. */
  function Replace(text: string, secret: string): string
    requires secret != ""
  {
    if |text| < |secret| then text
    else if text[..|secret|] == secret then MASK + Replace(text[|secret|..], secret)
    else [text[0]] + Replace(text[1..], secret)
  }

  predicate Occurs(part: string, text: string, i: nat) {
    i + |part| <= |text| && text[i..i + |part|] == part
  }

  predicate Contains(text: string, part: string) {
    exists i: nat :: i <= |text| && Occurs(part, text, i)
  }

  /** What one step of the scan writes, and what it leaves to scan. */
  function Written(text: string, secret: string): string
    requires secret != "" && |text| >= |secret|
  {
    if text[..|secret|] == secret then MASK else [text[0]]
  }

  function Skipped(text: string, secret: string): (n: nat)
    requires secret != "" && |text| >= |secret|
    ensures 0 < n <= |text|
  {
    if text[..|secret|] == secret then |secret| else 1
  }

  lemma ContainsLater(text: string, n: nat, part: string)
    requires n <= |text|
    ensures Contains(text[n..], part) ==> Contains(text, part)
  {
    if i: nat :| i <= |text[n..]| && Occurs(part, text[n..], i) {
      OccursLater(part, text, n, i);
    }
  }

  /** A secret no mask can be taken for a part of: no star at either end, and no mask inside. */
  predicate Safe(s: string) {
    Ended(s) && (s != "" ==> s[0] != '*')
  }

  predicate Ended(part: string) {
    !Contains(part, MASK) && (part != "" ==> part[|part| - 1] != '*')
  }

  lemma TailEnded(part: string)
    requires Ended(part) && part != ""
    ensures Ended(part[1..])
  {
    ContainsLater(part, 1, MASK);
  }

  /** It does not begin with a mask either, or with the beginning of one that ends it. */
  lemma NotMasked(part: string, rest: string)
    requires Ended(part) && part != ""
    ensures !(part <= MASK + rest)
  {
    assert (MASK + rest)[..3] == MASK;
    if |part| >= 3 {
      assert part[..3] == MASK ==> Occurs(MASK, part, 0);
    } else {
      assert (MASK + rest)[|part| - 1] == '*';
    }
  }

  /** Such a beginning of the result was the beginning of the text. */
  lemma {:induction false} PrefixSurvives(text: string, secret: string, part: string)
    requires secret != "" && Ended(part) && part <= Replace(text, secret)
    ensures part <= text
  {
    if part != "" && |text| >= |secret| {
      if text[..|secret|] == secret {
        NotMasked(part, Replace(text[|secret|..], secret));
      } else {
        TailEnded(part);
        PrefixSurvives(text[1..], secret, part[1..]);
      }
    }
  }

  lemma OccursRight(part: string, left: string, right: string, i: nat)
    requires Occurs(part, left + right, i) && i >= |left|
    ensures Occurs(part, right, i - |left|)
  {
    assert right[i - |left|..i - |left| + |part|] == (left + right)[i..i + |part|];
  }

  lemma OccursLater(part: string, text: string, n: nat, i: nat)
    requires n <= |text| && Occurs(part, text[n..], i)
    ensures Occurs(part, text, n + i)
  {
    assert text[n + i..n + i + |part|] == text[n..][i..i + |part|];
  }

  /** An occurrence past the start of the result, of what begins with no star, lies in the part still to
      scan. */
  lemma OccursInRest(text: string, secret: string, part: string, i: nat)
    requires secret != "" && |text| >= |secret| && part != "" && part[0] != '*'
    requires i > 0 && Occurs(part, Replace(text, secret), i)
    ensures i >= |Written(text, secret)|
    ensures Occurs(part, Replace(text[Skipped(text, secret)..], secret), i - |Written(text, secret)|)
  {
    var written, rest := Written(text, secret), Replace(text[Skipped(text, secret)..], secret);
    assert Replace(text, secret) == written + rest;
    assert part[0] == (written + rest)[i];
    OccursRight(part, written, rest, i);
  }

  /** Replacement forms no safe text that was not there. */
  lemma {:induction false} NothingFormed(text: string, secret: string, part: string, i: nat)
    requires secret != "" && part != "" && Safe(part) && Occurs(part, Replace(text, secret), i)
    ensures Contains(text, part)
    decreases |text|
  {
    if |text| < |secret| {
      assert Occurs(part, text, i);
    } else if i == 0 {
      PrefixSurvives(text, secret, part);
      assert Occurs(part, text, 0);
    } else {
      var n := Skipped(text, secret);
      OccursInRest(text, secret, part, i);
      NothingFormed(text[n..], secret, part, i - |Written(text, secret)|);
      var j: nat :| j <= |text[n..]| && Occurs(part, text[n..], j);
      OccursLater(part, text, n, j);
    }
  }

  /** And the secret itself is gone. */
  lemma {:induction false} SecretGone(text: string, secret: string, i: nat)
    requires secret != "" && Safe(secret)
    ensures !Occurs(secret, Replace(text, secret), i)
    decreases |text|
  {
    if |text| >= |secret| && Occurs(secret, Replace(text, secret), i) {
      if i == 0 {
        PrefixSurvives(text, secret, secret);
        NotMasked(secret, Replace(text[|secret|..], secret));
      } else {
        OccursInRest(text, secret, secret, i);
        SecretGone(text[Skipped(text, secret)..], secret, i - |Written(text, secret)|);
      }
    }
  }

  /** Every secret in turn; empty ones are passed over. */
  function RedactText(text: string, secrets: seq<string>): string {
    if secrets == [] then text
    else
      var front, last := secrets[..|secrets| - 1], secrets[|secrets| - 1];
      if last == "" then RedactText(text, front) else Replace(RedactText(text, front), last)
  }

  method Redact(text: string, secrets: seq<string>) returns (redacted: string)
    ensures redacted == RedactText(text, secrets)
  {
    redacted := text;
    for i := 0 to |secrets|
      invariant redacted == RedactText(text, secrets[..i])
    {
      assert secrets[..i + 1][..i] == secrets[..i];
      if secrets[i] != "" {
        redacted := Replace(redacted, secrets[i]);
      }
    }
    assert secrets[..|secrets|] == secrets;
  }

  predicate TextHolds(text: string, secrets: seq<string>) {
    exists s :: s in secrets && s != "" && Contains(text, s)
  }

  /** A safe secret is gone from the result, whatever the others are: no later replacement can put it
      together again. */
  lemma {:induction false} SafeSecretGone(text: string, secrets: seq<string>, s: string)
    requires s in secrets && s != "" && Safe(s)
    ensures !Contains(RedactText(text, secrets), s)
  {
    var front, last := secrets[..|secrets| - 1], secrets[|secrets| - 1];
    assert secrets == front + [last];
    if s in front {
      SafeSecretGone(text, front, s);
    }
    if last != "" {
      OneMoreGone(RedactText(text, front), last, s);
    }
  }

  lemma OneMoreGone(before: string, last: string, s: string)
    requires last != "" && s != "" && Safe(s) && (s == last || !Contains(before, s))
    ensures !Contains(Replace(before, last), s)
  {
    var done := Replace(before, last);
    forall i: nat | i <= |done| ensures !Occurs(s, done, i) {
      if s == last {
        SecretGone(before, last, i);
      } else if Occurs(s, done, i) {
        NothingFormed(before, last, s, i);
      }
    }
  }

  /** Redaction in sequence is complete where every secret is safe. */
  lemma NoSecretLeft(text: string, secrets: seq<string>)
    requires forall s :: s in secrets ==> Safe(s)
    ensures !TextHolds(RedactText(text, secrets), secrets)
  {
    forall s | s in secrets && s != "" ensures !Contains(RedactText(text, secrets), s) {
      SafeSecretGone(text, secrets, s);
    }
  }

  // ------------------------------------------------------------------ unsafe secrets

  function Repeat(c: char, n: nat): (r: string)
    ensures |r| == n && forall i :: 0 <= i < n ==> r[i] == c
  {
    seq(n, i => c)
  }

  /** A letter that is neither of three. */
  function Fourth(a: char, b: char, c: char): (d: char)
    ensures d != a && d != b && d != c
  {
    if 'p' != a && 'p' != b && 'p' != c then 'p'
    else if 'q' != a && 'q' != b && 'q' != c then 'q'
    else if 'r' != a && 'r' != b && 'r' != c then 'r'
    else 's'
  }

  lemma {:induction false} ReplaceAbsent(text: string, secret: string)
    requires secret != "" && !Contains(text, secret)
    ensures Replace(text, secret) == text
    decreases |text|
  {
    if |text| >= |secret| {
      assert !Occurs(secret, text, 0);
      ContainsLater(text, 1, secret);
      ReplaceAbsent(text[1..], secret);
    }
  }

  /** A long run of one letter is masked where it stands, after text that does not end with the letter. */
  lemma {:induction false} ReplaceRun(left: string, c: char, n: nat, right: string)
    requires n > |left| && n > |right| && (left != "" ==> left[|left| - 1] != c)
    ensures Replace(left + Repeat(c, n) + right, Repeat(c, n)) == left + MASK + right
    decreases |left|
  {
    var run := Repeat(c, n);
    var text := left + run + right;
    if left == "" {
      assert text[..n] == run && text[n..] == right;
    } else {
      assert text[|left| - 1] == left[|left| - 1];
      assert text[..n][|left| - 1] != run[|left| - 1];
      assert text[1..] == left[1..] + run + right;
      ReplaceRun(left[1..], c, n, right);
    }
  }

  /** A secret that neither begins nor ends with the letter, and is longer than either side, is not in a
      text around a longer run of it. */
  lemma NotAround(s: string, left: string, c: char, n: nat, right: string)
    requires |left| < |s| && |right| < |s| < n && s[0] != c && s[|s| - 1] != c
    ensures !Contains(left + Repeat(c, n) + right, s)
  {
    var text := left + Repeat(c, n) + right;
    forall i: nat | i + |s| <= |text| ensures !Occurs(s, text, i) {
      if i < |left| {
        assert text[i..i + |s|][|s| - 1] == text[i + |s| - 1] == c;
      } else {
        assert text[i..i + |s|][0] == text[i] == c;
      }
    }
  }

  /** So the mask of a later secret completes it. */
  lemma Completed(s: string, left: string, right: string) returns (text: string, secrets: seq<string>)
    requires |left| < |s| && |right| < |s| && Contains(left + MASK + right, s)
    ensures s in secrets && Contains(RedactText(text, secrets), s)
  {
    var c := Fourth(s[0], s[|s| - 1], if left == "" then s[0] else left[|left| - 1]);
    var n := |s| + 1;
    text, secrets := left + Repeat(c, n) + right, [s, Repeat(c, n)];
    assert secrets[..1] == [s] && [s][..0] == [];
    NotAround(s, left, c, n, right);
    ReplaceAbsent(text, s);
    ReplaceRun(left, c, n, right);
    assert RedactText(text, secrets[..1]) == text;
  }

  lemma UnsafeSecretLeft(s: string) returns (text: string, secrets: seq<string>)
    requires s != "" && !Safe(s)
    ensures s in secrets && Contains(RedactText(text, secrets), s)
  {
    if s[0] == '*' {
      assert (MASK + s[1..])[2..2 + |s|] == s;
      assert Occurs(s, "" + MASK + s[1..], 2);
      text, secrets := Completed(s, "", s[1..]);
    } else if s[|s| - 1] == '*' {
      var left := s[..|s| - 1];
      assert (left + MASK + "")[..|s|] == s;
      assert Occurs(s, left + MASK + "", 0);
      text, secrets := Completed(s, left, "");
    } else {
      var i: nat :| i <= |s| && Occurs(MASK, s, i);
      assert s[..i] + MASK + s[i + 3..] == s;
      assert Occurs(s, s[..i] + MASK + s[i + 3..], 0);
      text, secrets := Completed(s, s[..i], s[i + 3..]);
    }
  }

  predicate Removed(text: string, secrets: seq<string>, s: string) {
    !Contains(RedactText(text, secrets), s)
  }

  /** Redaction removes a secret from every text, whatever the other secrets are, if and only if it has no
      star at either end and no mask inside. */
  lemma RemovedIffSafe(s: string)
    requires s != ""
    ensures (forall text, secrets :: s in secrets ==> Removed(text, secrets, s)) <==> Safe(s)
  {
    if Safe(s) {
      forall text, secrets | s in secrets ensures Removed(text, secrets, s) {
        SafeSecretGone(text, secrets, s);
      }
    } else {
      var text, secrets := UnsafeSecretLeft(s);
      assert s in secrets && !Removed(text, secrets, s);
    }
  }

  /** Stars in a secret void the guarantee: the mask of a later one completes it. */
  lemma StarredSecretReformed()
    ensures TextHolds(RedactText("ab", ["a***", "b"]), ["a***", "b"])
  {
    var secrets := ["a***", "b"];
    assert secrets[..1] == ["a***"] && ["a***"][..0] == [];
    assert RedactText("ab", ["a***"]) == "ab";
    assert "ab"[1..] == "b" && "b"[1..] == "";
    assert Replace("b", "b") == "***";
    assert RedactText("ab", secrets) == "a***";
    assert Occurs("a***", "a***", 0) && "a***" in secrets;
  }

  // ------------------------------------------------------------------ nested values

  /** A logged value. `Other` is any object that is rendered through `str`. */
  datatype Value =
    | Text(text: string)
    | Table(entries: seq<Pair>)
    | List(items: seq<Value>)
    | Plain
    | Other(rendered: string)

  datatype Pair = Pair(key: Value, item: Value)

  predicate Holds(value: Value, secrets: seq<string>) {
    match value
    case Text(text) => TextHolds(text, secrets)
    case Table(entries) =>
      exists i :: 0 <= i < |entries| && (Holds(entries[i].item, secrets) || Holds(entries[i].key, secrets))
    case List(items) => exists i :: 0 <= i < |items| && Holds(items[i], secrets)
    case Plain => false
    case Other(rendered) => TextHolds(rendered, secrets)
  }

  function CleanKey(key: Value, secrets: seq<string>): Value {
    if key.Text? then Text(RedactText(key.text, secrets)) else key
  }

  /** A dictionary keeps one item per key, the last one written. */
  function Put(entries: seq<Pair>, pair: Pair): (put: seq<Pair>)
    ensures forall e :: e in put ==> e == pair || e in entries
    ensures pair in put && (forall e :: e in entries && e.key != pair.key ==> e in put)
  {
    if entries == [] then [pair]
    else if entries[0].key == pair.key then [pair] + entries[1..]
    else [entries[0]] + Put(entries[1..], pair)
  }

  /** Recursion stops at the depth bound: what lies deeper is masked whole. */
  function Cleaned(value: Value, secrets: seq<string>, depth: nat): Value
    decreases depth, 0
  {
    if depth == 0 then Text(MASK)
    else
      match value
      case Text(text) => Text(RedactText(text, secrets))
      case Table(entries) => Table(CleanedEntries(entries, secrets, depth))
      case List(items) => List(seq(|items|, i requires 0 <= i < |items| => Cleaned(items[i], secrets, depth - 1)))
      case Plain => Plain
      case Other(rendered) => if TextHolds(rendered, secrets) then Text(RedactText(rendered, secrets)) else value
  }

  function CleanedEntries(entries: seq<Pair>, secrets: seq<string>, depth: nat): seq<Pair>
    requires depth > 0
    decreases depth - 1, 1, |entries|
  {
    if entries == [] then []
    else
      var last := entries[|entries| - 1];
      Put(CleanedEntries(entries[..|entries| - 1], secrets, depth),
          Pair(CleanKey(last.key, secrets), Cleaned(last.item, secrets, depth - 1)))
  }

  predicate DistinctKeys(entries: seq<Pair>) {
    forall i, j :: 0 <= i < j < |entries| ==> entries[i].key != entries[j].key
  }

  lemma {:induction false} PutKeepsDistinct(entries: seq<Pair>, pair: Pair)
    requires DistinctKeys(entries)
    ensures DistinctKeys(Put(entries, pair))
    ensures forall e :: e in Put(entries, pair) <==> e == pair || (e in entries && e.key != pair.key)
  {
    if entries != [] && entries[0].key != pair.key {
      PutKeepsDistinct(entries[1..], pair);
    }
  }

  /** No later entry has the key this one is logged under. */
  predicate Final(entries: seq<Pair>, secrets: seq<string>, i: nat)
    requires i < |entries|
  {
    forall j :: i < j < |entries| ==> CleanKey(entries[j].key, secrets) != CleanKey(entries[i].key, secrets)
  }

  function CleanPair(e: Pair, secrets: seq<string>, depth: nat): Pair
    requires depth > 0
    decreases depth, 1
  {
    Pair(CleanKey(e.key, secrets), Cleaned(e.item, secrets, depth - 1))
  }

  /** What is logged of a table is what no later entry overwrites. */
  lemma {:induction false} FinalOnesKept(entries: seq<Pair>, secrets: seq<string>, depth: nat)
    requires depth > 0
    ensures DistinctKeys(CleanedEntries(entries, secrets, depth))
    ensures forall e :: e in CleanedEntries(entries, secrets, depth) <==>
                        exists i :: 0 <= i < |entries| && Final(entries, secrets, i)
                                    && e == CleanPair(entries[i], secrets, depth)
  {
    if entries != [] {
      var front, last := entries[..|entries| - 1], entries[|entries| - 1];
      FinalOnesKept(front, secrets, depth);
      PutKeepsDistinct(CleanedEntries(front, secrets, depth), CleanPair(last, secrets, depth));
      forall e ensures e in CleanedEntries(entries, secrets, depth) <==>
                       exists i :: 0 <= i < |entries| && Final(entries, secrets, i)
                                   && e == CleanPair(entries[i], secrets, depth)
      {
        OneMoreKept(entries, secrets, depth, e);
      }
    }
  }

  lemma OneMoreKept(entries: seq<Pair>, secrets: seq<string>, depth: nat, e: Pair)
    requires depth > 0 && entries != []
    ensures var front, last := entries[..|entries| - 1], CleanPair(entries[|entries| - 1], secrets, depth);
            (exists i :: 0 <= i < |entries| && Final(entries, secrets, i)
                         && e == CleanPair(entries[i], secrets, depth)) <==>
            || e == last
            || (e.key != last.key
                && exists i :: 0 <= i < |front| && Final(front, secrets, i) && e == CleanPair(front[i], secrets, depth))
  {
    var front, n := entries[..|entries| - 1], |entries| - 1;
    assert Final(entries, secrets, n);
    forall i | 0 <= i < n
      ensures Final(entries, secrets, i) <==>
              Final(front, secrets, i) && CleanKey(entries[n].key, secrets) != CleanKey(entries[i].key, secrets)
      ensures front[i] == entries[i]
    {
      forall j | i < j < n ensures front[j] == entries[j] {}
    }
  }

  /** The secret is in a key that is not a text, above the depth bound, and nothing later is logged under
      that key or under the key of a table it is in. */
  predicate Leaks(value: Value, secrets: seq<string>, depth: nat, s: string) {
    depth > 0 &&
    match value
    case Table(entries) =>
      exists i :: 0 <= i < |entries| && Final(entries, secrets, i)
                  && ((!entries[i].key.Text? && Holds(entries[i].key, [s]))
                      || Leaks(entries[i].item, secrets, depth - 1, s))
    case List(items) => exists i :: 0 <= i < |items| && Leaks(items[i], secrets, depth - 1, s)
    case _ => false
  }

  lemma HoldsOne(text: string, s: string)
    ensures TextHolds(text, [s]) <==> s != "" && Contains(text, s)
  {
    assert s in [s];
  }

  lemma MaskClean(s: string)
    requires Safe(s)
    ensures !TextHolds(MASK, [s])
  {
    HoldsOne(MASK, s);
    forall i: nat | s != "" && i + |s| <= |MASK| ensures !Occurs(s, MASK, i) {
      assert MASK[i..i + |s|][0] == '*';
    }
  }

  lemma TextCleaned(text: string, secrets: seq<string>, s: string)
    requires s in secrets && Safe(s)
    ensures !TextHolds(RedactText(text, secrets), [s])
  {
    HoldsOne(RedactText(text, secrets), s);
    if s != "" {
      SafeSecretGone(text, secrets, s);
    }
  }

  /** A logged value holds a safe secret if and only if a key that is not a text lets it through. */
  lemma {:induction false} CleanedHoldsIffLeaks(value: Value, secrets: seq<string>, depth: nat, s: string)
    requires s in secrets && Safe(s)
    ensures Holds(Cleaned(value, secrets, depth), [s]) <==> Leaks(value, secrets, depth, s)
    decreases depth, 1
  {
    if depth == 0 {
      MaskClean(s);
    } else {
      match value
      case Text(text) => TextCleaned(text, secrets, s);
      case Table(entries) => TableHoldsIffLeaks(entries, secrets, depth, s);
      case List(items) =>
        var cleaned := Cleaned(value, secrets, depth).items;
        forall i | 0 <= i < |items|
          ensures cleaned[i] == Cleaned(items[i], secrets, depth - 1)
          ensures Holds(cleaned[i], [s]) <==> Leaks(items[i], secrets, depth - 1, s)
        {
          CleanedHoldsIffLeaks(items[i], secrets, depth - 1, s);
        }
      case Plain =>
      case Other(rendered) =>
        TextCleaned(rendered, secrets, s);
        HoldsOne(rendered, s);
    }
  }

  predicate PairHolds(e: Pair, s: string) {
    Holds(e.item, [s]) || Holds(e.key, [s])
  }

  lemma {:induction false} TableHoldsIffLeaks(entries: seq<Pair>, secrets: seq<string>, depth: nat, s: string)
    requires depth > 0 && s in secrets && Safe(s)
    ensures Holds(Table(CleanedEntries(entries, secrets, depth)), [s]) <==> Leaks(Table(entries), secrets, depth, s)
    decreases depth, 0
  {
    var kept := CleanedEntries(entries, secrets, depth);
    FinalOnesKept(entries, secrets, depth);
    forall i | 0 <= i < |entries|
      ensures PairHolds(CleanPair(entries[i], secrets, depth), s) <==>
              (!entries[i].key.Text? && Holds(entries[i].key, [s])) || Leaks(entries[i].item, secrets, depth - 1, s)
    {
      CleanedHoldsIffLeaks(entries[i].item, secrets, depth - 1, s);
      if entries[i].key.Text? {
        TextCleaned(entries[i].key.text, secrets, s);
      }
    }
    HeldByOne(kept, s);
  }

  lemma HeldByOne(entries: seq<Pair>, s: string)
    ensures Holds(Table(entries), [s]) <==> exists e :: e in entries && PairHolds(e, s)
  {
    if e :| e in entries && PairHolds(e, s) {
      var i :| 0 <= i < |entries| && entries[i] == e;
    }
    if i :| 0 <= i < |entries| && (Holds(entries[i].item, [s]) || Holds(entries[i].key, [s])) {
      assert entries[i] in entries && PairHolds(entries[i], s);
    }
  }

  /** No key other than a text, down to the depth bound, holds the secret. */
  predicate OddKeysClean(value: Value, depth: nat, s: string) {
    depth > 0 ==>
      match value
      case Table(entries) =>
        forall i :: 0 <= i < |entries| ==>
          (entries[i].key.Text? || !Holds(entries[i].key, [s])) && OddKeysClean(entries[i].item, depth - 1, s)
      case List(items) => forall i :: 0 <= i < |items| ==> OddKeysClean(items[i], depth - 1, s)
      case _ => true
  }

  lemma {:induction false} CleanKeysLeakNothing(value: Value, secrets: seq<string>, depth: nat, s: string)
    requires OddKeysClean(value, depth, s)
    ensures !Leaks(value, secrets, depth, s)
    decreases depth
  {
    if depth > 0 {
      match value
      case Table(entries) =>
        forall i | 0 <= i < |entries| ensures !Leaks(entries[i].item, secrets, depth - 1, s) {
          CleanKeysLeakNothing(entries[i].item, secrets, depth - 1, s);
        }
      case List(items) =>
        forall i | 0 <= i < |items| ensures !Leaks(items[i], secrets, depth - 1, s) {
          CleanKeysLeakNothing(items[i], secrets, depth - 1, s);
        }
      case _ =>
    }
  }

  /** So with keys that are texts, or hold nothing, nothing logged holds the secret, values cut off at the
      depth bound included. */
  lemma CleanedHoldsNothing(value: Value, secrets: seq<string>, depth: nat, s: string)
    requires s in secrets && Safe(s) && OddKeysClean(value, depth, s)
    ensures !Holds(Cleaned(value, secrets, depth), [s])
  {
    CleanedHoldsIffLeaks(value, secrets, depth, s);
    CleanKeysLeakNothing(value, secrets, depth, s);
  }

  /** What leaks was in the value. */
  lemma {:induction false} LeakIsHeld(value: Value, secrets: seq<string>, depth: nat, s: string)
    requires Leaks(value, secrets, depth, s)
    ensures Holds(value, [s])
    decreases depth
  {
    match value
    case Table(entries) =>
      var i :| 0 <= i < |entries| && Final(entries, secrets, i)
               && ((!entries[i].key.Text? && Holds(entries[i].key, [s]))
                   || Leaks(entries[i].item, secrets, depth - 1, s));
      if Leaks(entries[i].item, secrets, depth - 1, s) {
        LeakIsHeld(entries[i].item, secrets, depth - 1, s);
      }
    case List(items) =>
      var i :| 0 <= i < |items| && Leaks(items[i], secrets, depth - 1, s);
      LeakIsHeld(items[i], secrets, depth - 1, s);
  }

  /** A value that holds none of the secrets does not hold this one. */
  lemma {:induction false} HoldsMore(value: Value, secrets: seq<string>, s: string)
    requires s in secrets && Holds(value, [s])
    ensures Holds(value, secrets)
  {
    match value
    case Table(entries) =>
      var i :| 0 <= i < |entries| && (Holds(entries[i].item, [s]) || Holds(entries[i].key, [s]));
      if Holds(entries[i].item, [s]) {
        HoldsMore(entries[i].item, secrets, s);
      } else {
        HoldsMore(entries[i].key, secrets, s);
      }
    case List(items) =>
      var i :| 0 <= i < |items| && Holds(items[i], [s]);
      HoldsMore(items[i], secrets, s);
    case _ =>
  }

  // ------------------------------------------------------------------ the log record

  class LogRecord {
    /** The message with its arguments filled in. */
    var message: string
    var excText: Option<string>
    /** Attributes a caller attached. */
    var extras: map<string, Value>

    constructor (message: string, excText: Option<string>, extras: map<string, Value>)
      ensures this.message == message && this.excText == excText && this.extras == extras
    {
      this.message, this.excText, this.extras := message, excText, extras;
    }

    predicate ExtrasHold(secrets: seq<string>)
      reads this
    {
      exists k :: k in extras && (TextHolds(k, secrets) || Holds(extras[k], secrets))
    }

    /** What makes the filter rewrite the record. */
    predicate Suspect(secrets: seq<string>)
      reads this
    {
      TextHolds(message, secrets) || ExtrasHold(secrets) || (excText.Some? && TextHolds(excText.value, secrets))
    }

    /** After the filter neither message nor exception text holds a safe secret, and an attribute's value
        holds one exactly if a key that is not a text lets it through. The names of attributes are not
        rewritten. */
    method Filter(secrets: seq<string>)
      modifies this
      ensures forall s :: s in secrets && Safe(s) ==> !TextHolds(message, [s])
      ensures forall s :: s in secrets && Safe(s) && excText.Some? ==> !TextHolds(excText.value, [s])
      ensures extras.Keys == old(extras).Keys && (excText.Some? <==> old(excText).Some?)
      ensures forall s, k :: s in secrets && Safe(s) && k in extras ==>
                (Holds(extras[k], [s]) <==> Leaks(old(extras)[k], secrets, MAX_DEPTH, s))
      ensures !old(Suspect(secrets)) ==> message == old(message) && excText == old(excText) && extras == old(extras)
    {
      if !Suspect(secrets) {
        forall s, k | s in secrets && k in extras
          ensures !Holds(extras[k], [s]) && !Leaks(extras[k], secrets, MAX_DEPTH, s)
        {
          UnheldLeaksNothing(extras[k], secrets, MAX_DEPTH, s);
        }
        return;
      }
      forall s | s in secrets && Safe(s) ensures !TextHolds(RedactText(message, secrets), [s]) {
        TextCleaned(message, secrets, s);
      }
      message := Redact(message, secrets);
      var before := extras;
      extras := map k | k in before :: Cleaned(before[k], secrets, MAX_DEPTH);
      forall s, k | s in secrets && Safe(s) && k in extras
        ensures Holds(extras[k], [s]) <==> Leaks(before[k], secrets, MAX_DEPTH, s)
      {
        CleanedHoldsIffLeaks(before[k], secrets, MAX_DEPTH, s);
      }
      if excText.Some? {
        forall s | s in secrets && Safe(s) ensures !TextHolds(RedactText(excText.value, secrets), [s]) {
          TextCleaned(excText.value, secrets, s);
        }
        var cleaned := Redact(excText.value, secrets);
        excText := Some(cleaned);
      }
    }
  }

  lemma UnheldLeaksNothing(value: Value, secrets: seq<string>, depth: nat, s: string)
    requires s in secrets && !Holds(value, secrets)
    ensures !Holds(value, [s]) && !Leaks(value, secrets, depth, s)
  {
    if Holds(value, [s]) {
      HoldsMore(value, secrets, s);
    }
    if Leaks(value, secrets, depth, s) {
      LeakIsHeld(value, secrets, depth, s);
    }
  }
}
