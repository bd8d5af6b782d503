/** The task entity: an identity and creation time fixed at construction,
    and a description, status and last-update time that its methods rewrite
    in place. */
module Tasks {

  const MinInt32: int := -0x8000_0000
  const MaxInt32: int := 0x7fff_ffff

  /** The C# `int` that holds a task's id. */
  type Int32 = x: int | MinInt32 <= x <= MaxInt32

  /** The status strings the task's own transitions write. */
  const InProgress: string := "in-progress"
  const Done: string := "done"

  // ---------------------------------------------------------------------------
  // Quote trimming: `s.Trim('"')` removes every leading and every trailing
  // double-quote character, not just one enclosing pair.
  // ---------------------------------------------------------------------------

  predicate AllQuotes(s: string) {
    forall k :: 0 <= k < |s| ==> s[k] == '"'
  }

  /** True when `s` starts or ends with a double quote. */
  predicate HasQuoteEdge(s: string) {
    |s| > 0 && (s[0] == '"' || s[|s| - 1] == '"')
  }

  /** `TrimStart('"')`: what is left does not start with a quote. */
  function TrimLeadingQuotes(s: string): (r: string)
    ensures r == [] || r[0] != '"'
  {
    if |s| > 0 && s[0] == '"' then TrimLeadingQuotes(s[1..]) else s
  }

  /** `TrimEnd('"')`: what is left does not end with a quote and, unless it
      is empty, starts where `s` starts. */
  function TrimTrailingQuotes(s: string): (r: string)
    ensures r == [] || (|s| > 0 && r[|r| - 1] != '"' && r[0] == s[0])
  {
    if |s| > 0 && s[|s| - 1] == '"' then TrimTrailingQuotes(s[..|s| - 1]) else s
  }

  /** What TrimStart leaves is a suffix of `s`, and everything it cuts off is
      a quote. */
  lemma {:induction false} TrimLeadingIsSuffix(s: string)
    ensures var r := TrimLeadingQuotes(s);
            |r| <= |s| && r == s[|s| - |r|..] && AllQuotes(s[..|s| - |r|])
  {
    if |s| > 0 && s[0] == '"' {
      TrimLeadingIsSuffix(s[1..]);
      var r := TrimLeadingQuotes(s);
      assert s[..|s| - |r|] == [s[0]] + s[1..][..|s| - 1 - |r|];
    }
  }

  /** What TrimEnd leaves is a prefix of `s`, and everything it cuts off is a
      quote. */
  lemma {:induction false} TrimTrailingIsPrefix(s: string)
    ensures var r := TrimTrailingQuotes(s);
            |r| <= |s| && r == s[..|r|] && AllQuotes(s[|r|..])
  {
    if |s| > 0 && s[|s| - 1] == '"' {
      var s' := s[..|s| - 1];
      TrimTrailingIsPrefix(s');
      var r := TrimTrailingQuotes(s);
      assert s[|r|..] == s'[|r|..] + [s[|s| - 1]];
    }
  }

  /** `Trim('"')`: both trims, leading quotes first. */
  function TrimQuotes(s: string): (r: string)
    ensures !HasQuoteEdge(r)
  {
    TrimTrailingQuotes(TrimLeadingQuotes(s))
  }

  /** The trimmed string is a contiguous piece of `s` with nothing but
      quotes on either side of it. */
  lemma TrimQuotesIsQuoteFramed(s: string)
    ensures var r := TrimQuotes(s);
            exists i :: 0 <= i <= |s| - |r| && r == s[i..i + |r|]
                        && AllQuotes(s[..i]) && AllQuotes(s[i + |r|..])
  {
    var lead := TrimLeadingQuotes(s);
    var r := TrimTrailingQuotes(lead);
    TrimLeadingIsSuffix(s);
    TrimTrailingIsPrefix(lead);
    var i := |s| - |lead|;
    assert r == s[i..i + |r|];
    assert s[i + |r|..] == lead[|r|..];
  }

  lemma {:induction false} TrimLeadingSkipsQuotes(pre: string, x: string)
    requires AllQuotes(pre)
    ensures TrimLeadingQuotes(pre + x) == TrimLeadingQuotes(x)
  {
    if pre == [] {
      assert pre + x == x;
    } else {
      assert (pre + x)[1..] == pre[1..] + x;
      TrimLeadingSkipsQuotes(pre[1..], x);
    }
  }

  lemma {:induction false} TrimTrailingSkipsQuotes(x: string, post: string)
    requires AllQuotes(post)
    ensures TrimTrailingQuotes(x + post) == TrimTrailingQuotes(x)
  {
    if post == [] {
      assert x + post == x;
    } else {
      var n := |post| - 1;
      assert (x + post)[..|x + post| - 1] == x + post[..n];
      TrimTrailingSkipsQuotes(x, post[..n]);
    }
  }

  /** The converse of TrimQuotes's postcondition: any split of a string into
      quotes, a quote-free-edged middle and quotes trims to that middle, so
      the postcondition determines the result. */
  lemma {:induction false} TrimQuotesUnique(pre: string, r: string, post: string)
    requires AllQuotes(pre) && AllQuotes(post) && !HasQuoteEdge(r)
    ensures TrimQuotes(pre + r + post) == r
  {
    var x := r + post;
    assert pre + r + post == pre + x;
    TrimLeadingSkipsQuotes(pre, x);
    if r == [] {
      assert x == post + [];
      TrimLeadingSkipsQuotes(post, []);
      assert TrimLeadingQuotes(pre + r + post) == [];
    } else {
      assert x[0] == r[0];
      assert TrimLeadingQuotes(pre + r + post) == x;
      TrimTrailingSkipsQuotes(r, post);
    }
  }

  /** Trimming twice is trimming once. */
  lemma TrimQuotesIdempotent(s: string)
    ensures TrimQuotes(TrimQuotes(s)) == TrimQuotes(s)
  {
    var r := TrimQuotes(s);
    assert [] + r + [] == r;
    TrimQuotesUnique([], r, []);
  }

  /** A string that neither starts nor ends with a quote is left as it is. */
  lemma TrimQuotesKeepsUnquoted(s: string)
    requires !HasQuoteEdge(s)
    ensures TrimQuotes(s) == s
  {
    assert [] + s + [] == s;
    TrimQuotesUnique([], s, []);
  }

  // ---------------------------------------------------------------------------
  // The entity
  // ---------------------------------------------------------------------------

  /** The values of a task's five properties at one moment. */
  datatype TaskRecord = TaskRecord(id: Int32, description: string, status: string,
                                   createdAt: string, updatedAt: string)

  /** `Id` and `CreatedAt` are get-only, so they are constants; the other
      three have private setters and are rewritten by the methods below. */
  class Task {
    const id: Int32
    var description: string
    var status: string
    const createdAt: string
    var updatedAt: string

    function Snapshot(): TaskRecord
      reads this
    {
      TaskRecord(id, description, status, createdAt, updatedAt)
    }

    /** Stores every argument as given, except the description, whose
        surrounding quotes are trimmed. */
    constructor (id: Int32, description: string, status: string, createdAt: string, updatedAt: string)
      ensures Snapshot() == TaskRecord(id, TrimQuotes(description), status, createdAt, updatedAt)
      ensures !HasQuoteEdge(this.description)
    {
      this.id := id;
      this.description := TrimQuotes(description);
      this.status := status;
      this.createdAt := createdAt;
      this.updatedAt := updatedAt;
    }

    /** New trimmed description and update time; id, status and creation
        time stay. `now` stands for the formatted current time. */
    method Update(description: string, now: string)
      modifies this
      ensures Snapshot() == old(Snapshot()).(description := TrimQuotes(description), updatedAt := now)
    {
      this.description := TrimQuotes(description);
      updatedAt := now;
    }

    /** Unconditional: an in-progress task is set again and its update time
        refreshed. */
    method MarkInProgress(now: string)
      modifies this
      ensures Snapshot() == old(Snapshot()).(status := InProgress, updatedAt := now)
    {
      status := InProgress;
      updatedAt := now;
    }

    method MarkAsDone(now: string)
      modifies this
      ensures Snapshot() == old(Snapshot()).(status := Done, updatedAt := now)
    {
      status := Done;
      updatedAt := now;
    }
  }
}
