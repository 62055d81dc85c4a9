/** The two text rules around the generated SQL: the cleanup of the model's
    reply in `MedicalDataProcessor.generate_sql_query` and the SELECT-only
    guard in `MedicalDataProcessor.execute_query`. */
module SqlText {
  import Text

  const SqlFence := "```sql"
  const Fence := "```"
  const SelectKeyword := "SELECT"

  /** `re.sub(tag + r'\n?', '', s)` for a literal `tag`: scanning from the
      left, each occurrence of `tag` is deleted together with the newline
      right after it, if there is one; the scan resumes after what it deleted. */
  function DropFence(s: string, tag: string): string
    requires tag != []
    decreases |s|
  {
    if s == [] then []
    else if tag <= s then
      var rest := s[|tag|..];
      if rest != [] && rest[0] == '\n' then DropFence(rest[1..], tag) else DropFence(rest, tag)
    else [s[0]] + DropFence(s[1..], tag)
  }

  /** The SQL kept from the model's reply: stripped, fences removed, stripped again.
      Whatever the reply, the result neither starts nor ends with whitespace. */
  function CleanSql(reply: string): (sql: string)
    ensures sql == [] || (!Text.IsSpace(sql[0]) && !Text.IsSpace(sql[|sql| - 1]))
    ensures |sql| <= |reply|
  {
    var once := DropFence(Text.Strip(reply), SqlFence);
    var twice := DropFence(once, Fence);
    DropFenceShrinks(Text.Strip(reply), SqlFence);
    DropFenceShrinks(once, Fence);
    Text.Strip(twice)
  }

  /** The guard of `execute_query`: the query, stripped and upper-cased, must start with SELECT. */
  predicate IsSelectQuery(sql: string) {
    SelectKeyword <= Text.Upper(Text.Strip(sql))
  }

  lemma {:induction false} DropFenceShrinks(s: string, tag: string)
    requires tag != []
    ensures |DropFence(s, tag)| <= |s|
    decreases |s|
  {
    if s == [] {
    } else if tag <= s {
      var rest := s[|tag|..];
      if rest != [] && rest[0] == '\n' {
        DropFenceShrinks(rest[1..], tag);
      } else {
        DropFenceShrinks(rest, tag);
      }
    } else {
      DropFenceShrinks(s[1..], tag);
    }
  }

  /** A text in which the tag does not occur passes through unchanged. */
  lemma {:induction false} DropFenceAbsent(s: string, tag: string)
    requires tag != []
    requires !Text.IsSubstring(tag, s)
    ensures DropFence(s, tag) == s
    decreases |s|
  {
    if s != [] {
      assert s[0..] == s;
      assert !(tag <= s);
      forall k | 0 <= k <= |s[1..]|
        ensures !(tag <= s[1..][k..])
      {
        assert s[1..][k..] == s[k + 1..];
      }
      DropFenceAbsent(s[1..], tag);
      assert [s[0]] + s[1..] == s;
    }
  }

  /** A text without a fence, followed by a newline and a closing fence: the
      closing fence is the one removed. */
  lemma {:induction false} DropClosingFence(q: string)
    requires !Text.IsSubstring(Fence, q)
    ensures DropFence(q + "\n" + Fence, Fence) == q + "\n"
    decreases |q|
  {
    var s := q + "\n" + Fence;
    if q == [] {
      assert s[0] == '\n';
      assert s[1..] == Fence;
      assert DropFence(Fence, Fence) == [];
    } else {
      assert q[0..] == q;
      if |q| >= 3 {
        assert s[..3] == q[..3];
        assert !(Fence <= q);
      } else {
        assert s[|q|] == '\n';
      }
      assert !(Fence <= s);
      forall k | 0 <= k <= |q[1..]|
        ensures !(Fence <= q[1..][k..])
      {
        assert q[1..][k..] == q[k + 1..];
      }
      assert s[1..] == q[1..] + "\n" + Fence;
      DropClosingFence(q[1..]);
      assert [q[0]] + (q[1..] + "\n") == q + "\n";
    }
  }

  /** A fence-free text followed by a newline and a closing fence holds no SQL fence. */
  lemma NoSqlFenceBeforeClosing(q: string)
    requires !Text.IsSubstring(Fence, q)
    ensures !Text.IsSubstring(SqlFence, q + "\n" + Fence)
  {
    var s := q + "\n" + Fence;
    forall k | 0 <= k <= |s|
      ensures !(SqlFence <= s[k..])
    {
      if k + 3 <= |q| {
        assert !(Fence <= q[k..]);
        assert s[k..][..3] == q[k..][..3];
      } else if k + 6 <= |s| {
        assert s[k..][|q| - k] == '\n';
      }
    }
  }

  /** The opening SQL fence and its newline go; the rest is kept as it is. */
  lemma DropOpeningFence(q: string)
    requires !Text.IsSubstring(Fence, q)
    ensures DropFence(SqlFence + "\n" + q + "\n" + Fence, SqlFence) == q + "\n" + Fence
  {
    var reply := SqlFence + "\n" + q + "\n" + Fence;
    assert SqlFence <= reply;
    assert reply[|SqlFence|..] == "\n" + (q + "\n" + Fence);
    NoSqlFenceBeforeClosing(q);
    DropFenceAbsent(q + "\n" + Fence, SqlFence);
  }

  /** A reply fenced as a markdown SQL block, whose body holds no fence of its
      own, is cleaned to its body with the surrounding whitespace removed. */
  lemma CleanFencedReply(q: string)
    requires !Text.IsSubstring(Fence, q)
    ensures CleanSql(SqlFence + "\n" + q + "\n" + Fence) == Text.Strip(q)
  {
    var reply := SqlFence + "\n" + q + "\n" + Fence;
    var none: string := [];
    Text.StripPadded(none, reply, none);
    assert none + reply + none == reply;
    DropOpeningFence(q);
    DropClosingFence(q);
    var nl: string := "\n";
    assert Text.AllSpace(nl);
    Text.StripAppendSpace(q, nl);
  }

  /** Where no fence occurs, no SQL fence (which begins with one) occurs either. */
  lemma NoFenceNoSqlFence(s: string)
    requires !Text.IsSubstring(Fence, s)
    ensures !Text.IsSubstring(SqlFence, s)
  {
    forall k | 0 <= k <= |s|
      ensures !(SqlFence <= s[k..])
    {
      assert !(Fence <= s[k..]);
      if |s[k..]| >= 6 {
        assert s[k..][..3] != Fence;
      }
    }
  }

  /** A tag absent from a text is absent from every slice of it. */
  lemma SliceKeepsAbsence(tag: string, s: string, i: nat, j: nat)
    requires i <= j <= |s|
    requires !Text.IsSubstring(tag, s)
    ensures !Text.IsSubstring(tag, s[i..j])
  {
    var t := s[i..j];
    forall k | 0 <= k <= |t|
      ensures !(tag <= t[k..])
    {
      assert !(tag <= s[i + k..]);
      if |tag| <= |t| - k {
        assert t[k..][..|tag|] == s[i + k..i + k + |tag|];
        assert s[i + k..][..|tag|] == s[i + k..i + k + |tag|];
      }
    }
  }

  /** Stripping cannot create an occurrence of a tag. */
  lemma StripKeepsAbsence(tag: string, s: string)
    requires !Text.IsSubstring(tag, s)
    ensures !Text.IsSubstring(tag, Text.Strip(s))
  {
    var a, b := Text.StripSplit(s);
    SliceKeepsAbsence(tag, s, |a|, |s| - |b|);
  }

  /** A reply without any fence is only stripped. */
  lemma CleanUnfencedReply(reply: string)
    requires !Text.IsSubstring(Fence, reply)
    ensures CleanSql(reply) == Text.Strip(reply)
  {
    var s := Text.Strip(reply);
    StripKeepsAbsence(Fence, reply);
    NoFenceNoSqlFence(s);
    DropFenceAbsent(s, SqlFence);
    DropFenceAbsent(s, Fence);
    Text.StripIdempotent(reply);
  }

  /** The text starts with SELECT in any letter case. */
  predicate HasKeyword(s: string) {
    |s| >= 6 && Text.Upper(s[..6]) == SelectKeyword
  }

  /** Upper-casing, then testing the prefix, is testing the upper-cased prefix. */
  lemma UpperStartsWith(s: string)
    ensures SelectKeyword <= Text.Upper(s) <==> HasKeyword(s)
  {
    if |s| >= 6 {
      Text.UpperAt(s);
      Text.UpperAt(s[..6]);
      assert Text.Upper(s)[..6] == Text.Upper(s[..6]);
    }
  }

  /** Dropping trailing whitespace keeps a leading keyword, and adds none. */
  lemma TrimEndKeepsKeyword(t: string)
    ensures HasKeyword(Text.TrimEnd(t)) <==> HasKeyword(t)
  {
    var r := Text.TrimEnd(t);
    if HasKeyword(t) {
      Text.UpperAt(t[..6]);
      assert Text.Upper(t[..6])[5] == Text.UpperChar(t[5]);
      assert !Text.IsSpace(t[5]);
    }
    if |r| >= 6 {
      assert r[..6] == t[..6];
    }
  }

  /** The guard accepts exactly the queries whose first non-blank characters
      spell SELECT in any letter case; whatever follows does not matter. */
  lemma SelectGuardExact(sql: string)
    ensures IsSelectQuery(sql) <==> HasKeyword(Text.TrimStart(sql))
  {
    UpperStartsWith(Text.Strip(sql));
    TrimEndKeepsKeyword(Text.TrimStart(sql));
  }

  lemma UpperSelect()
    ensures Text.Upper("select") == SelectKeyword
  {
    var u := Text.Upper("select");
    Text.UpperAt("select");
    assert u[0] == 'S' && u[1] == 'E' && u[2] == 'L' && u[3] == 'E' && u[4] == 'C' && u[5] == 'T';
  }

  /** The guard is a prefix test, not a keyword test: a lower-case word that
      merely begins with "select" passes. */
  lemma GuardAcceptsSelectedPrefix()
    ensures IsSelectQuery(" selected")
  {
    var word := "selected";
    Text.TrimStartPadded(" ", word);
    assert " " + word == " selected";
    assert word[..6] == "select";
    UpperSelect();
    SelectGuardExact(" selected");
  }
}
