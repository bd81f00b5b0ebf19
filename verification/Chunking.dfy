/** Whether the reads in which a stream arrives decide if it passes the stdout reader, and exactly when they do. */
module Chunking {
  import opened Common
  import opened Utf8
  import opened Framer

  /** The adapter's cap and the size of one read. */
  const CAP: nat := 1048576
  const MAX_READ: nat := 65536

  /** These nonempty reads of at most w bytes make up the stream. */
  predicate Cuts(chunks: seq<seq<Byte>>, s: seq<Byte>, w: nat) {
    Concat(chunks) == s && forall c <- chunks :: 0 < |c| <= w
  }

  /** One more byte fits after every proper prefix, and so do all lines. */
  ghost predicate Passable(s: seq<Byte>, cap: nat) {
    (forall j :: 0 <= j < |s| ==> Load(s[..j]) + 1 <= cap) && Size(AllLines(s)) <= cap
  }

  /** The longest possible read fits after every proper prefix, and so do all lines. */
  ghost predicate Secure(s: seq<Byte>, w: nat, cap: nat) {
    (forall j :: 0 <= j < |s| ==> Load(s[..j]) + Min(w, |s| - j) <= cap) && Size(AllLines(s)) <= cap
  }

  lemma LoadGrows(a: seq<Byte>, b: seq<Byte>)
    ensures Load(a + b) <= Load(a) + |b|
  {
    SizeExact(a);
    SizeExact(a + b);
    SplitResumes(a, b);
    hide Load, Stripped;
  }

  /** The first reads make up a prefix of the stream. */
  lemma {:induction false} ReadsArePrefix(chunks: seq<seq<Byte>>, i: nat)
    requires i <= |chunks|
    ensures Concat(chunks[..i]) <= Concat(chunks)
    ensures i < |chunks| ==> Concat(chunks[..i]) + chunks[i] <= Concat(chunks)
    decreases |chunks|
  {
    if i == |chunks| {
      assert chunks[..i] == chunks;
    } else {
      var init := chunks[..|chunks| - 1];
      assert init[..i] == chunks[..i];
      ReadsArePrefix(init, i);
    }
  }

  /** The read that brings a given byte. */
  lemma {:induction false} ReadOfByte(chunks: seq<seq<Byte>>, j: nat) returns (i: nat)
    requires j < |Concat(chunks)|
    ensures i < |chunks| && |Concat(chunks[..i])| <= j < |Concat(chunks[..i])| + |chunks[i]|
    decreases |chunks|
  {
    var init := chunks[..|chunks| - 1];
    if j < |Concat(init)| {
      i := ReadOfByte(init, j);
      assert init[..i] == chunks[..i];
    } else {
      i := |chunks| - 1;
    }
  }

  /** The stream read byte by byte. */
  function Singles(s: seq<Byte>): seq<seq<Byte>> {
    seq(|s|, k requires 0 <= k < |s| => [s[k]])
  }

  lemma {:induction false} SinglesUpTo(s: seq<Byte>, i: nat)
    requires i <= |s|
    ensures Concat(Singles(s)[..i]) == s[..i]
    decreases i
  {
    if i > 0 {
      var singles := Singles(s)[..i];
      SinglesUpTo(s, i - 1);
      assert singles[..i - 1] == Singles(s)[..i - 1];
      assert s[..i] == s[..i - 1] + [s[i - 1]];
    }
  }

  lemma SinglesCut(s: seq<Byte>)
    ensures |Singles(s)| == |s| && Concat(Singles(s)) == s
    ensures forall c <- Singles(s) :: |c| == 1
  {
    SinglesUpTo(s, |s|);
    assert Singles(s)[..|s|] == Singles(s) && s[..|s|] == s;
    hide Concat;
  }

  /** Whatever the reads: if they pass, one more byte fits after every prefix. */
  lemma PassingIsPassable(chunks: seq<seq<Byte>>, cap: nat)
    requires !Overflows(chunks, cap)
    ensures Passable(Concat(chunks), cap)
  {
    var s := Concat(chunks);
    forall j | 0 <= j < |s| ensures Load(s[..j]) + 1 <= cap {
      var i := ReadOfByte(chunks, j);
      var before := Concat(chunks[..i]);
      ReadsArePrefix(chunks, i);
      assert !Bursts(chunks, i, cap);
      LoadGrows(before, s[|before|..j]);
      assert s[..j] == before + s[|before|..j];
    }
  }

  lemma SinglesPass(s: seq<Byte>, cap: nat)
    requires Passable(s, cap)
    ensures !Overflows(Singles(s), cap)
  {
    SinglesCut(s);
    forall i | 0 <= i < |Singles(s)| ensures !Bursts(Singles(s), i, cap) {
      SinglesUpTo(s, i);
      hide Load, Concat;
    }
    hide Load, Concat, Bursts;
  }

  /** Some way of reading the stream passes if and only if one more byte fits after every prefix; and then reading it
      byte by byte passes. */
  lemma SomeReadingPasses(s: seq<Byte>, w: nat, cap: nat)
    requires w >= 1
    ensures (exists chunks :: Cuts(chunks, s, w) && !Overflows(chunks, cap)) <==> Passable(s, cap)
    ensures Passable(s, cap) <==> !Overflows(Singles(s), cap)
  {
    SinglesCut(s);
    if Passable(s, cap) {
      SinglesPass(s, cap);
      assert Cuts(Singles(s), s, w);
    } else if !Overflows(Singles(s), cap) {
      PassingIsPassable(Singles(s), cap);
    }
    forall chunks | Cuts(chunks, s, w) && !Overflows(chunks, cap) ensures Passable(s, cap) {
      PassingIsPassable(chunks, cap);
    }
  }

  /** Reads that are single bytes up to j, then one read of n bytes, then single bytes again. */
  function OneBigRead(s: seq<Byte>, j: nat, n: nat): seq<seq<Byte>>
    requires j + n <= |s|
  {
    Singles(s[..j]) + [s[j..j + n]] + Singles(s[j + n..])
  }

  lemma {:induction false} ConcatJoin(a: seq<seq<Byte>>, b: seq<seq<Byte>>)
    ensures Concat(a + b) == Concat(a) + Concat(b)
    decreases |b|
  {
    if b == [] {
      assert a + b == a;
    } else {
      assert (a + b)[..|a + b| - 1] == a + b[..|b| - 1] && (a + b)[|a + b| - 1] == b[|b| - 1];
      ConcatJoin(a, b[..|b| - 1]);
    }
  }

  lemma OneBigReadCuts(s: seq<Byte>, j: nat, n: nat, w: nat)
    requires j + n <= |s| && 0 < n <= w
    ensures Cuts(OneBigRead(s, j, n), s, w)
    ensures j < |OneBigRead(s, j, n)| && OneBigRead(s, j, n)[j] == s[j..j + n]
    ensures Concat(OneBigRead(s, j, n)[..j]) == s[..j]
  {
    var a, read, c := Singles(s[..j]), s[j..j + n], Singles(s[j + n..]);
    SinglesCut(s[..j]);
    SinglesCut(s[j + n..]);
    ThreeParts(s, j, n);
    hide Singles, Concat;
    Joined(a, read, c, w);
  }

  lemma ThreeParts(s: seq<Byte>, j: nat, n: nat)
    requires j + n <= |s|
    ensures s[..j] + s[j..j + n] + s[j + n..] == s
  {
  }

  lemma Joined(a: seq<seq<Byte>>, read: seq<Byte>, c: seq<seq<Byte>>, w: nat)
    requires 0 < |read| <= w && (forall x <- a :: 0 < |x| <= w) && (forall x <- c :: 0 < |x| <= w)
    ensures var all := a + [read] + c;
            && Concat(all) == Concat(a) + read + Concat(c)
            && (forall x <- all :: 0 < |x| <= w)
            && all[..|a|] == a && all[|a|] == read
  {
    OneRead(read);
    ConcatJoin(a, [read]);
    ConcatJoin(a + [read], c);
    hide Concat;
  }

  lemma OneRead(c: seq<Byte>)
    ensures Concat([c]) == c
  {
    assert [c][..0] == Singles([]);
  }

  /** Every way of reading the stream in reads of at most w bytes passes if and only if the longest possible read fits
      after every prefix. */
  lemma EveryReadingPasses(s: seq<Byte>, w: nat, cap: nat)
    requires w >= 1
    ensures (forall chunks :: Cuts(chunks, s, w) ==> !Overflows(chunks, cap)) <==> Secure(s, w, cap)
  {
    if Secure(s, w, cap) {
      forall chunks | Cuts(chunks, s, w) ensures !Overflows(chunks, cap) {
        SecurePasses(chunks, s, w, cap);
      }
    } else {
      var chunks := InsecureFails(s, w, cap);
      assert Cuts(chunks, s, w) && Overflows(chunks, cap);
    }
  }

  lemma SecurePasses(chunks: seq<seq<Byte>>, s: seq<Byte>, w: nat, cap: nat)
    requires Cuts(chunks, s, w) && Secure(s, w, cap)
    ensures !Overflows(chunks, cap)
  {
    forall i | 0 <= i < |chunks| ensures !Bursts(chunks, i, cap) {
      ReadsArePrefix(chunks, i);
      assert chunks[i] in chunks;
      var j := |Concat(chunks[..i])|;
      assert s[..j] == Concat(chunks[..i]);
      hide Load;
    }
  }

  /** A way of reading that fails, when not every one passes. */
  lemma InsecureFails(s: seq<Byte>, w: nat, cap: nat) returns (chunks: seq<seq<Byte>>)
    requires w >= 1 && !Secure(s, w, cap)
    ensures Cuts(chunks, s, w) && Overflows(chunks, cap)
  {
    SinglesCut(s);
    chunks := Singles(s);
    hide Load, Concat, Singles, Size, AllLines;
    if Size(AllLines(s)) <= cap {
      var j :| 0 <= j < |s| && Load(s[..j]) + Min(w, |s| - j) > cap;
      var n := Min(w, |s| - j);
      OneBigReadCuts(s, j, n, w);
      hide OneBigRead, Cuts;
      chunks := OneBigRead(s, j, n);
      assert Bursts(chunks, j, cap);
    }
  }

  /** With reads of any length the condition is just that everything fits as it came. */
  lemma UnboundedReads(s: seq<Byte>, w: nat, cap: nat)
    requires w >= |s|
    ensures Secure(s, w, cap) <==> |s| <= cap && Size(AllLines(s)) <= cap
  {
    SizeExact(s[..0]);
    forall j | 0 <= j < |s| ensures Load(s[..j]) <= j {
      SizeExact(s[..j]);
    }
  }

  /** So how the stream is cut into reads decides whether it passes if and only if a single byte always fits but some
      longer read does not. */
  lemma ReadingDecides(s: seq<Byte>, w: nat, cap: nat)
    requires w >= 1
    ensures (exists a, b :: Cuts(a, s, w) && Cuts(b, s, w) && !Overflows(a, cap) && Overflows(b, cap)) <==>
            Passable(s, cap) && !Secure(s, w, cap)
  {
    SomeReadingPasses(s, w, cap);
    EveryReadingPasses(s, w, cap);
    hide Cuts, Overflows, Passable, Secure;
  }

  /** One long line with a carriage return, then an empty one. */
  function PaddedLine(n: nat): seq<Byte> {
    seq(n, k => 120) + [CR, LF, LF]
  }

  /** Bytes without a line feed are all pending. */
  lemma PendingLoad(s: seq<Byte>)
    requires LF !in s
    ensures Load(s) == |s|
  {
    FirstBreakIs(s, |s|);
    NoLine(s);
  }

  /** A first line that ends in a carriage return: one byte less, then the rest. */
  lemma FirstLineLoad(s: seq<Byte>, i: nat)
    requires 0 < i < |s| && LF !in s[..i] && s[i] == LF && s[i - 1] == CR
    ensures Load(s) == i + Load(s[i + 1..]) && Rest(s) == Rest(s[i + 1..])
  {
    forall k | 0 <= k < i ensures s[k] != LF {
      assert s[k] == s[..i][k];
    }
    OneLine(s, i);
    SizeExact(s);
    SizeExact(s[i + 1..]);
    hide Load, Lines, Rest, Stripped, FirstBreak;
  }

  lemma PaddedLoads(n: nat, j: nat)
    requires j <= n + 3
    ensures Load(PaddedLine(n)[..j]) == if j <= n + 1 then j else j - 1
  {
    var p := PaddedLine(n)[..j];
    if j <= n + 1 {
      PendingLoad(p);
    } else {
      assert LF !in p[..n + 1];
      FirstLineLoad(p, n + 1);
      if j == n + 2 {
        PendingLoad(p[n + 2..]);
      } else {
        assert p[n + 2..] == [LF];
        EmptyLine();
      }
    }
    hide Load;
  }

  lemma EmptyLine()
    ensures Load([LF]) == 1 && Rest([LF]) == []
  {
    OneLine([LF], 0);
    SizeExact([LF]);
    NoLine([LF][1..]);
    hide Load, Lines, Rest, Stripped, FirstBreak;
  }

  lemma PaddedSize(n: nat)
    ensures Size(AllLines(PaddedLine(n))) == n + 2
  {
    var s := PaddedLine(n);
    PaddedLoads(n, n + 3);
    assert s[..n + 3] == s && LF !in s[..n + 1] && s[n + 2..] == [LF];
    FirstLineLoad(s, n + 1);
    EmptyLine();
    AllSize(s);
    hide Lines, Rest, AllLines, Size;
  }

  /** With carriage returns the reads can decide, whatever the cap: this stream passes byte by byte and fails when its
      end arrives in one read. */
  lemma PaddedLineDecides(cap: nat, w: nat)
    requires cap >= 2 && w >= 3
    ensures var s := PaddedLine(cap - 2); Passable(s, cap) && !Secure(s, w, cap)
  {
    var s := PaddedLine(cap - 2);
    PaddedLoads(cap - 2, cap - 2);
    PaddedSize(cap - 2);
    forall j | 0 <= j < |s| ensures Load(s[..j]) + 1 <= cap {
      PaddedLoads(cap - 2, j);
    }
    assert Load(s[..cap - 2]) + Min(w, |s| - (cap - 2)) > cap;
  }

  /** At the adapter's own cap and read size, the same bytes pass in some reads and fail in others. */
  lemma ChunkingCanDecide(s: seq<Byte>)
    requires s == PaddedLine(CAP - 2)
    ensures exists a, b :: Cuts(a, s, MAX_READ) && Cuts(b, s, MAX_READ) && !Overflows(a, CAP) && Overflows(b, CAP)
  {
    PaddedLineDecides(CAP, MAX_READ);
    ReadingDecides(s, MAX_READ, CAP);
  }
}
