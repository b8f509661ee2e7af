/**
 * The in-app message form (src/components/notification/in-app-message-form.tsx):
 * user ids typed into a text field or read from an uploaded text file, one per
 * line, and split again on submit into the list the notification is sent to.
 */
module MessageForm {
  import opened Optional
  import opened Text
  import opened Seqs

  const PlainText: string := "text/plain"
  /** The characters `/\r?\n/` splits at (a `\r` just before one is dropped with it). */
  const LineBreak: set<char> := {'\n'}
  /** The characters a run of which `/[\n,]+/` splits at. */
  const IdSeparators: set<char> := {'\n', ','}
  /** The notification type of an in-app message. */
  const InAppMessage: int := 0

  /** `s.split(re)` for a pattern matching exactly one character of `seps`: every piece, empty ones included. */
  function SplitChars(s: string, seps: set<char>): (r: seq<string>)
    ensures |r| >= 1
    decreases |s|
  {
    if s == [] then [""]
    else
      var rest := SplitChars(s[1..], seps);
      if s[0] in seps then [""] + rest else [[s[0]] + rest[0]] + rest[1..]
  }

  /** `s` without its leading separators. */
  function DropSeps(s: string, seps: set<char>): (r: string)
    ensures |r| <= |s| && r == s[|s| - |r|..]
    ensures forall i :: 0 <= i < |s| - |r| ==> s[i] in seps
    ensures r != [] ==> r[0] !in seps
  {
    if s != [] && s[0] in seps then DropSeps(s[1..], seps) else s
  }

  /** `s.split(re)` for a pattern matching a run of one or more characters of `seps`. */
  function SplitRuns(s: string, seps: set<char>): (r: seq<string>)
    ensures |r| >= 1
    decreases |s|
  {
    if s == [] then [""]
    else if s[0] in seps then [""] + SplitRuns(DropSeps(s[1..], seps), seps)
    else
      var rest := SplitRuns(s[1..], seps);
      [[s[0]] + rest[0]] + rest[1..]
  }

  /** A piece with the `\r` of a `\r\n` line break removed. */
  function DropCR(p: string): (r: string)
    ensures r == p || (p == r + ['\r'])
  {
    if p != [] && p[|p| - 1] == '\r' then p[..|p| - 1] else p
  }

  /** Every piece but the last loses the `\r` of the `\r\n` that ended it. */
  function DropCRs(ps: seq<string>): (r: seq<string>)
    ensures |r| == |ps|
  {
    if |ps| <= 1 then ps else [DropCR(ps[0])] + DropCRs(ps[1..])
  }

  /** `s.split(/\r?\n/)`. */
  function SplitLines(s: string): (r: seq<string>)
    ensures |r| == |SplitChars(s, LineBreak)|
  {
    DropCRs(SplitChars(s, LineBreak))
  }

  /** `.map(x => x.trim())`. */
  function Trimmed(parts: seq<string>): (r: seq<string>)
    ensures |r| == |parts|
  {
    if parts == [] then [] else [Trim(parts[0])] + Trimmed(parts[1..])
  }

  lemma {:induction false} TrimmedAt(parts: seq<string>, i: nat)
    requires i < |parts|
    ensures Trimmed(parts)[i] == Trim(parts[i])
  {
    var rest := Trimmed(parts[1..]);
    assert Trimmed(parts) == [Trim(parts[0])] + rest;
    if i > 0 {
      TrimmedAt(parts[1..], i - 1);
      assert parts[1..][i - 1] == parts[i];
      assert Trimmed(parts)[i] == rest[i - 1];
    }
  }

  lemma {:induction false} TrimmedConcat(a: seq<string>, b: seq<string>)
    ensures Trimmed(a + b) == Trimmed(a) + Trimmed(b)
  {
    if a == [] {
      assert a + b == b;
    } else {
      assert (a + b)[0] == a[0] && (a + b)[1..] == a[1..] + b;
      TrimmedConcat(a[1..], b);
    }
  }

  /** Every trimmed piece is empty or has no white space at either end. */
  lemma {:induction false} TrimmedShape(parts: seq<string>)
    ensures forall k :: 0 <= k < |Trimmed(parts)| ==>
      Trimmed(parts)[k] == [] || (!IsSpace(Trimmed(parts)[k][0]) && !IsSpace(Trimmed(parts)[k][|Trimmed(parts)[k]| - 1]))
  {
    forall k | 0 <= k < |Trimmed(parts)|
      ensures Trimmed(parts)[k] == [] || (!IsSpace(Trimmed(parts)[k][0]) && !IsSpace(Trimmed(parts)[k][|Trimmed(parts)[k]| - 1]))
    {
      TrimmedAt(parts, k);
    }
  }

  /** Trimming keeps out whatever the pieces keep out. */
  lemma {:induction false} TrimmedAvoid(parts: seq<string>, bad: set<char>)
    requires forall k :: 0 <= k < |parts| ==> Avoids(parts[k], bad)
    ensures forall k :: 0 <= k < |Trimmed(parts)| ==> Avoids(Trimmed(parts)[k], bad)
  {
    forall k | 0 <= k < |Trimmed(parts)| ensures Avoids(Trimmed(parts)[k], bad) {
      TrimmedAt(parts, k);
      TrimAvoids(parts[k], bad);
    }
  }

  /** `.filter(x => x.length > 0)`: the non-empty strings, in order. */
  function NonEmpty(xs: seq<string>): (r: seq<string>)
    ensures forall i :: 0 <= i < |r| ==> r[i] != []
  {
    if xs == [] then []
    else if xs[0] != [] then [xs[0]] + NonEmpty(xs[1..])
    else NonEmpty(xs[1..])
  }

  /** The filter keeps exactly the non-empty strings, in their order. */
  lemma {:induction false} NonEmptySpec(xs: seq<string>)
    ensures IsSubsequence(NonEmpty(xs), xs)
    ensures forall t :: t in NonEmpty(xs) <==> t in xs && t != []
    ensures forall t :: multiset(NonEmpty(xs))[t] == if t != [] then multiset(xs)[t] else 0
  {
    if xs != [] {
      NonEmptySpec(xs[1..]);
      var rest := NonEmpty(xs[1..]);
      assert xs == [xs[0]] + xs[1..];
      assert multiset(xs) == multiset([xs[0]]) + multiset(xs[1..]);
      if xs[0] != [] {
        assert multiset([xs[0]] + rest) == multiset([xs[0]]) + multiset(rest);
      }
      assert forall t :: t in xs <==> t == xs[0] || t in xs[1..];
      if xs[0] != [] {
        assert ([xs[0]] + rest)[1..] == rest;
      } else if rest != [] {
        assert rest[0] != xs[0];
      }
    }
  }

  /** The pipeline both parsers share: trim every piece and drop the empty ones. */
  function CleanIds(parts: seq<string>): seq<string>
  {
    NonEmpty(Trimmed(parts))
  }

  /** The ids are the trimmed pieces, in piece order, without the empty ones. */
  lemma {:induction false} CleanIdsSpec(parts: seq<string>)
    ensures IsSubsequence(CleanIds(parts), Trimmed(parts))
    ensures forall t :: t in CleanIds(parts) <==> t in Trimmed(parts) && t != []
    ensures forall t :: multiset(CleanIds(parts))[t] == if t != [] then multiset(Trimmed(parts))[t] else 0
  {
    NonEmptySpec(Trimmed(parts));
  }

  /** A cleaned id: non-empty, with no white space at either end. */
  predicate IsId(t: string)
  {
    t != [] && !IsSpace(t[0]) && !IsSpace(t[|t| - 1])
  }

  lemma {:induction false} CleanIdsSingle(p: string)
    ensures CleanIds([p]) == if Trim(p) == [] then [] else [Trim(p)]
  {
    assert Trimmed([p]) == [Trim(p)];
    assert NonEmpty([Trim(p)]) == (if Trim(p) == [] then [] else [Trim(p)]) by {
      assert [Trim(p)][1..] == [];
    }
  }

  /** Every cleaned id is an id. */
  lemma {:induction false} CleanIdsShape(parts: seq<string>)
    ensures forall i :: 0 <= i < |CleanIds(parts)| ==> IsId(CleanIds(parts)[i])
  {
    if parts != [] {
      CleanIdsShape(parts[1..]);
      CleanIdsHeadTail(parts);
      SingleIdShape(parts[0]);
      AllIdsConcat(CleanIds([parts[0]]), CleanIds(parts[1..]));
    }
  }

  lemma SingleIdShape(p: string)
    ensures forall i :: 0 <= i < |CleanIds([p])| ==> IsId(CleanIds([p])[i])
  {
    CleanIdsSingle(p);
  }

  lemma AllIdsConcat(a: seq<string>, b: seq<string>)
    requires forall i :: 0 <= i < |a| ==> IsId(a[i])
    requires forall i :: 0 <= i < |b| ==> IsId(b[i])
    ensures forall i :: 0 <= i < |a + b| ==> IsId((a + b)[i])
  {
  }

  /** The ids an uploaded file contributes: its lines, trimmed, without the blank ones. */
  function ParseFileIds(content: string): (ids: seq<string>)
    ensures forall i :: 0 <= i < |ids| ==> IsId(ids[i])
  {
    CleanIdsShape(SplitLines(content));
    CleanIds(SplitLines(content))
  }

  /** What submitting the field splits it into: pieces between runs of newlines and commas, trimmed, blanks dropped. */
  function SubmittedIds(userIds: string): seq<string>
  {
    CleanIds(SplitRuns(userIds, IdSeparators))
  }

  /** The `userIds` of the payload: the submitted ids, or `undefined` (everyone) when there are none. */
  function PayloadIds(userIds: string): (r: Option<seq<string>>)
    ensures r.None? <==> SubmittedIds(userIds) == []
    ensures r.Some? ==> r.value == SubmittedIds(userIds)
    ensures r.Some? ==> forall i :: 0 <= i < |r.value| ==> IsId(r.value[i])
  {
    CleanIdsShape(SplitRuns(userIds, IdSeparators));
    var submitted := if userIds != [] then Some(SubmittedIds(userIds)) else None;
    if submitted.Some? && submitted.value != [] then submitted
    else
      SubmittedOfEmptyField(userIds);
      None
  }

  /** An empty field splits into no ids, so leaving it empty and clearing it agree. */
  lemma SubmittedOfEmptyField(userIds: string)
    ensures userIds == [] ==> SubmittedIds(userIds) == []
  {
    if userIds == [] {
      assert SplitRuns(userIds, IdSeparators) == [""];
      assert Trimmed([""]) == [""];
    }
  }

  /** The field after an upload: the new ids, one per line, after the current text and a line break when it is not blank. */
  function MergeIds(current: string, newIds: seq<string>): string
  {
    current + (if !IsBlank(current) then "\n" else "") + Join(newIds, "\n")
  }

  /** `t` contains none of the characters in `bad`. */
  ghost predicate Avoids(t: string, bad: set<char>)
  {
    forall j :: 0 <= j < |t| ==> t[j] !in bad
  }

  // Facts about splitting.

  lemma {:induction false} SplitConcat(a: string, c: char, b: string, seps: set<char>)
    requires c in seps
    ensures SplitChars(a + [c] + b, seps) == SplitChars(a, seps) + SplitChars(b, seps)
    decreases |a|
  {
    if a == [] {
      assert a + [c] + b == [c] + b;
      assert ([c] + b)[1..] == b;
    } else {
      assert (a + [c] + b)[0] == a[0] && (a + [c] + b)[1..] == a[1..] + [c] + b;
      SplitConcat(a[1..], c, b, seps);
    }
  }

  lemma {:induction false} SplitAvoiding(t: string, seps: set<char>)
    requires Avoids(t, seps)
    ensures SplitChars(t, seps) == [t]
    decreases |t|
  {
    if t != [] {
      SplitAvoiding(t[1..], seps);
      assert [t[0]] + t[1..] == t;
    }
  }

  /** Splitting ids joined by a separator gives the ids back. */
  lemma {:induction false} SplitJoin(ids: seq<string>, c: char, seps: set<char>)
    requires |ids| >= 1 && c in seps
    requires forall i :: 0 <= i < |ids| ==> Avoids(ids[i], seps)
    ensures SplitChars(Join(ids, [c]), seps) == ids
    decreases |ids|
  {
    if |ids| == 1 {
      SplitAvoiding(ids[0], seps);
    } else {
      SplitJoin(ids[1..], c, seps);
      SplitAvoiding(ids[0], seps);
      SplitConcat(ids[0], c, Join(ids[1..], [c]), seps);
      assert [ids[0]] + ids[1..] == ids;
    }
  }

  /** Every piece avoids the separators and whatever the whole string avoids. */
  lemma {:induction false} SplitPiecesAvoid(s: string, seps: set<char>, bad: set<char>)
    requires Avoids(s, bad)
    ensures forall i :: 0 <= i < |SplitChars(s, seps)| ==> Avoids(SplitChars(s, seps)[i], bad + seps)
    decreases |s|
  {
    if s != [] {
      SplitPiecesAvoid(s[1..], seps, bad);
    }
  }

  lemma {:induction false} TrimAvoids(p: string, bad: set<char>)
    requires Avoids(p, bad)
    ensures Avoids(Trim(p), bad)
  {
    TrimOccurs(p);
    var i :| OccursAt(p, Trim(p), i);
    assert forall j :: 0 <= j < |Trim(p)| ==> Trim(p)[j] == p[i + j];
  }

  // Facts about cleaning.

  lemma {:induction false} NonEmptyConcat(a: seq<string>, b: seq<string>)
    ensures NonEmpty(a + b) == NonEmpty(a) + NonEmpty(b)
    decreases |a|
  {
    if a == [] {
      assert a + b == b;
    } else {
      assert (a + b)[0] == a[0] && (a + b)[1..] == a[1..] + b;
      NonEmptyConcat(a[1..], b);
    }
  }

  lemma {:induction false} CleanIdsConcat(a: seq<string>, b: seq<string>)
    ensures CleanIds(a + b) == CleanIds(a) + CleanIds(b)
  {
    TrimmedConcat(a, b);
    NonEmptyConcat(Trimmed(a), Trimmed(b));
  }

  lemma {:induction false} NonEmptyOfNonEmpty(xs: seq<string>)
    requires forall i :: 0 <= i < |xs| ==> xs[i] != []
    ensures NonEmpty(xs) == xs
    decreases |xs|
  {
    if xs != [] {
      NonEmptyOfNonEmpty(xs[1..]);
      assert [xs[0]] + xs[1..] == xs;
    }
  }

  /** Already trimmed, non-empty ids are left as they are. */
  lemma {:induction false} CleanIdsOfIds(ids: seq<string>)
    requires forall i :: 0 <= i < |ids| ==> IsId(ids[i])
    ensures CleanIds(ids) == ids
  {
    forall i | 0 <= i < |ids| ensures Trim(ids[i]) == ids[i] {
      TrimOfTrimmed(ids[i]);
    }
    TrimmedOfTrimmed(ids);
    NonEmptyOfNonEmpty(ids);
  }

  lemma {:induction false} TrimmedOfTrimmed(ids: seq<string>)
    requires forall i :: 0 <= i < |ids| ==> Trim(ids[i]) == ids[i]
    ensures Trimmed(ids) == ids
  {
    if ids != [] {
      TrimmedOfTrimmed(ids[1..]);
      assert [ids[0]] + ids[1..] == ids;
    }
  }

  lemma SplitCharsAtSep(s: string, seps: set<char>)
    requires s != [] && s[0] in seps
    ensures SplitChars(s, seps) == [""] + SplitChars(s[1..], seps)
  {
  }

  lemma SplitCharsAtChar(s: string, seps: set<char>)
    requires s != [] && s[0] !in seps
    ensures SplitChars(s, seps) == [[s[0]] + SplitChars(s[1..], seps)[0]] + SplitChars(s[1..], seps)[1..]
  {
  }

  lemma SplitRunsAtSep(s: string, seps: set<char>)
    requires s != [] && s[0] in seps
    ensures SplitRuns(s, seps) == [""] + SplitRuns(DropSeps(s[1..], seps), seps)
  {
  }

  lemma SplitRunsAtChar(s: string, seps: set<char>)
    requires s != [] && s[0] !in seps
    ensures SplitRuns(s, seps) == [[s[0]] + SplitRuns(s[1..], seps)[0]] + SplitRuns(s[1..], seps)[1..]
  {
  }

  /** An empty piece contributes no id. */
  lemma {:induction false} CleanIdsEmptyHead(r: seq<string>)
    ensures CleanIds([""] + r) == CleanIds(r)
  {
    CleanIdsConcat([""], r);
    assert CleanIds([""]) == [] by {
      assert Trimmed([""]) == [""];
    }
  }

  /** A piece and its head-and-tail decomposition yield the same ids. */
  lemma {:induction false} CleanIdsHeadTail(r: seq<string>)
    requires r != []
    ensures CleanIds(r) == CleanIds([r[0]]) + CleanIds(r[1..])
  {
    assert [r[0]] + r[1..] == r;
    CleanIdsConcat([r[0]], r[1..]);
  }

  lemma {:induction false} SameTrimSameIds(p: string, q: string)
    requires Trim(p) == Trim(q)
    ensures CleanIds([p]) == CleanIds([q])
  {
    assert Trimmed([p]) == [Trim(p)];
    assert Trimmed([q]) == [Trim(q)];
  }

  /** White space (line breaks included) before the text contributes no id. */
  lemma {:induction false} BlankPrefix(w: string, b: string, seps: set<char>)
    requires AllSpace(w)
    ensures CleanIds(SplitChars(w + b, seps)) == CleanIds(SplitChars(b, seps))
    decreases |w|
  {
    if w == [] {
      assert w + b == b;
    } else {
      var s := w + b;
      assert s[0] == w[0] && s[1..] == w[1..] + b;
      BlankPrefix(w[1..], b, seps);
      var rest := SplitChars(s[1..], seps);
      if w[0] in seps {
        SplitCharsAtSep(s, seps);
        CleanIdsEmptyHead(rest);
      } else {
        SplitCharsAtChar(s, seps);
        var split := SplitChars(s, seps);
        assert split[0] == [w[0]] + rest[0] && split[1..] == rest[1..];
        CleanIdsHeadTail(split);
        CleanIdsHeadTail(rest);
        TrimLeadingSpace([w[0]], rest[0]);
        SameTrimSameIds([w[0]] + rest[0], rest[0]);
      }
    }
  }

  /** Leading separators contribute only empty pieces. */
  lemma {:induction false} DropSepsClean(t: string, seps: set<char>)
    ensures CleanIds(SplitChars(t, seps)) == CleanIds(SplitChars(DropSeps(t, seps), seps))
    decreases |t|
  {
    if t != [] && t[0] in seps {
      assert DropSeps(t, seps) == DropSeps(t[1..], seps);
      DropSepsClean(t[1..], seps);
      SplitCharsAtSep(t, seps);
      CleanIdsEmptyHead(SplitChars(t[1..], seps));
    }
  }

  lemma {:induction false} RunsAgreeSplit(s: string, seps: set<char>)
    ensures SplitRuns(s, seps)[0] == SplitChars(s, seps)[0]
    ensures CleanIds(SplitRuns(s, seps)[1..]) == CleanIds(SplitChars(s, seps)[1..])
    decreases |s|
  {
    if s != [] {
      if s[0] in seps {
        var d := DropSeps(s[1..], seps);
        RunsAgreeSplit(d, seps);
        DropSepsClean(s[1..], seps);
        SplitRunsAtSep(s, seps);
        SplitCharsAtSep(s, seps);
        var r := SplitRuns(d, seps);
        var c := SplitChars(d, seps);
        assert SplitRuns(s, seps)[1..] == r;
        assert SplitChars(s, seps)[1..] == SplitChars(s[1..], seps);
        CleanIdsHeadTail(r);
        CleanIdsHeadTail(c);
      } else {
        RunsAgreeSplit(s[1..], seps);
        SplitRunsAtChar(s, seps);
        SplitCharsAtChar(s, seps);
        assert SplitRuns(s, seps)[1..] == SplitRuns(s[1..], seps)[1..];
        assert SplitChars(s, seps)[1..] == SplitChars(s[1..], seps)[1..];
      }
    }
  }

  /** Splitting at runs of separators gives the same ids as splitting at each separator. */
  lemma {:induction false} RunsAgree(s: string, seps: set<char>)
    ensures CleanIds(SplitRuns(s, seps)) == CleanIds(SplitChars(s, seps))
  {
    RunsAgreeSplit(s, seps);
    CleanIdsHeadTail(SplitRuns(s, seps));
    CleanIdsHeadTail(SplitChars(s, seps));
  }

  lemma {:induction false} TrimmedDropCRs(ps: seq<string>)
    ensures Trimmed(DropCRs(ps)) == Trimmed(ps)
  {
    if |ps| > 1 {
      TrimmedDropCRs(ps[1..]);
      if DropCR(ps[0]) != ps[0] {
        TrimTrailingSpace(DropCR(ps[0]), '\r');
      }
    }
  }

  lemma {:induction false} DropCRsAvoid(ps: seq<string>, bad: set<char>)
    requires forall k :: 0 <= k < |ps| ==> Avoids(ps[k], bad)
    ensures forall k :: 0 <= k < |DropCRs(ps)| ==> Avoids(DropCRs(ps)[k], bad)
  {
    if |ps| > 1 {
      assert forall k :: 0 <= k < |ps[1..]| ==> ps[1..][k] == ps[k + 1];
      DropCRsAvoid(ps[1..], bad);
      assert forall j :: 0 <= j < |DropCR(ps[0])| ==> DropCR(ps[0])[j] == ps[0][j];
    }
  }

  /** A `\r` before each line break makes no difference to the ids a file yields. */
  lemma {:induction false} LinesIgnoreCarriageReturns(content: string)
    ensures ParseFileIds(content) == CleanIds(SplitChars(content, LineBreak))
  {
    TrimmedDropCRs(SplitChars(content, LineBreak));
  }

  /** The ids of a file without commas contain no separator of either parser. */
  lemma {:induction false} FileIdsAvoidSeparators(content: string)
    requires Avoids(content, {','})
    ensures forall i :: 0 <= i < |ParseFileIds(content)| ==> Avoids(ParseFileIds(content)[i], IdSeparators)
  {
    var ps := SplitChars(content, LineBreak);
    var lines := SplitLines(content);
    SplitPiecesAvoid(content, LineBreak, {','});
    assert {','} + LineBreak == IdSeparators;
    DropCRsAvoid(ps, IdSeparators);
    TrimmedAvoid(lines, IdSeparators);
    NonEmptySpec(Trimmed(lines));
    var ids := ParseFileIds(content);
    forall i | 0 <= i < |ids| ensures Avoids(ids[i], IdSeparators) {
      assert ids[i] in Trimmed(lines);
    }
  }

  /**
   * Uploading a file (one without commas) and then submitting sends the ids
   * the field held before, followed by exactly the file's ids in file order.
   */
  lemma {:induction false} UploadThenSubmit(current: string, content: string)
    requires Avoids(content, {','})
    requires ParseFileIds(content) != []
    ensures SubmittedIds(MergeIds(current, ParseFileIds(content))) == SubmittedIds(current) + ParseFileIds(content)
  {
    var ids := ParseFileIds(content);
    var joined := Join(ids, "\n");
    FileIdsAvoidSeparators(content);
    SplitJoin(ids, '\n', IdSeparators);
    CleanIdsOfIds(ids);
    assert CleanIds(SplitChars(joined, IdSeparators)) == ids;
    if !IsBlank(current) {
      assert MergeIds(current, ids) == current + "\n" + joined;
      MergeAfterText(current, joined);
    } else {
      assert MergeIds(current, ids) == current + joined by {
        assert current + "" == current;
      }
      MergeAfterBlank(current, joined);
    }
  }

  /** After a non-blank text, a line break and the joined ids: the text's ids, then the joined ids. */
  lemma {:induction false} MergeAfterText(current: string, joined: string)
    ensures SubmittedIds(current + "\n" + joined) == SubmittedIds(current) + CleanIds(SplitChars(joined, IdSeparators))
  {
    RunsAgree(current + "\n" + joined, IdSeparators);
    RunsAgree(current, IdSeparators);
    SplitConcat(current, '\n', joined, IdSeparators);
    CleanIdsConcat(SplitChars(current, IdSeparators), SplitChars(joined, IdSeparators));
  }

  /** After a blank text, the joined ids alone. */
  lemma {:induction false} MergeAfterBlank(current: string, joined: string)
    requires IsBlank(current)
    ensures SubmittedIds(current + joined) == CleanIds(SplitChars(joined, IdSeparators))
    ensures SubmittedIds(current) == []
  {
    TrimEmptyIffAllSpace(current);
    RunsAgree(current + joined, IdSeparators);
    BlankPrefix(current, joined, IdSeparators);
    BlankField(current);
  }

  /** A blank field holds no ids. */
  lemma {:induction false} BlankField(current: string)
    requires AllSpace(current)
    ensures SubmittedIds(current) == []
  {
    BlankPieces(current);
    RunsAgree(current, IdSeparators);
  }

  lemma {:induction false} BlankPieces(current: string)
    requires AllSpace(current)
    ensures CleanIds(SplitChars(current, IdSeparators)) == []
  {
    var e: string := [];
    assert current + e == current;
    BlankPrefix(current, e, IdSeparators);
    NoIdsOfEmpty(e);
  }

  lemma {:induction false} NoIdsOfEmpty(e: string)
    requires e == []
    ensures CleanIds(SplitChars(e, IdSeparators)) == []
  {
    SplitAvoiding(e, IdSeparators);
    CleanIdsSingle(e);
  }

  /** The file an upload event carries: its MIME type and the text the reader yields. */
  datatype UploadedFile = UploadedFile(mimeType: string, text: string)

  /** The notification a submit sends. */
  datatype Notification = Notification(notificationType: int, title: string, content: string, userIds: Option<seq<string>>)

  class Form {
    var title: string
    var content: string
    var userIds: string

    constructor ()
      ensures title == [] && content == [] && userIds == []
    {
      title := [];
      content := [];
      userIds := [];
    }

    /**
     * `handleFileUpload`: no file, a file that is not plain text, or one
     * that yields no ids leaves the field as it was; otherwise the file's ids
     * are merged in. Returns how many ids were added.
     */
    method HandleFileUpload(file: Option<UploadedFile>) returns (added: nat)
      modifies this`userIds
      ensures file.None? || file.value.mimeType != PlainText || ParseFileIds(file.value.text) == [] ==>
        added == 0 && userIds == old(userIds)
      ensures file.Some? && file.value.mimeType == PlainText && ParseFileIds(file.value.text) != [] ==>
        added == |ParseFileIds(file.value.text)| && userIds == MergeIds(old(userIds), ParseFileIds(file.value.text))
    {
      if file.None? || file.value.mimeType != PlainText {
        return 0;
      }
      if file.value.text == [] {
        assert ParseFileIds(file.value.text) == [] by {
          assert SplitLines([]) == [""];
          assert Trimmed([""]) == [""];
        }
        return 0;
      }
      var newIds := ParseFileIds(file.value.text);
      if |newIds| == 0 {
        return 0;
      }
      userIds := MergeIds(userIds, newIds);
      added := |newIds|;
    }

    /** `onSubmit`: the notification built from the fields; after the service accepts it the form is reset. */
    method OnSubmit(response: Result<bool>) returns (sent: Notification)
      modifies this
      ensures sent == Notification(InAppMessage, old(title), old(content), PayloadIds(old(userIds)))
      ensures response.Ok? ==> title == [] && content == [] && userIds == []
      ensures response.Err? ==> title == old(title) && content == old(content) && userIds == old(userIds)
    {
      sent := Notification(InAppMessage, title, content, PayloadIds(userIds));
      if response.Ok? {
        Reset();
      }
    }

    /** `form.reset()`: back to the default values. */
    method Reset()
      modifies this
      ensures title == [] && content == [] && userIds == []
    {
      title := [];
      content := [];
      userIds := [];
    }
  }
}
