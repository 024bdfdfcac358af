/**
  Human-readable labels derived from raw column names.

  `GenerateLabelFromName` is the replace / split / map / filter / join chain
  the panel editor applies to a column identifier before it shows it on an
  axis: separators become spaces, the text is split on single spaces, every
  piece has its first character upper-cased, empty pieces are dropped and the
  rest are joined with single spaces.
*/
module Label {

  /** ECMAScript white space and line terminators: the characters `\s` matches. */
  predicate IsWhitespace(c: char) {
    || c == ' ' || c == '\t' || c == '\n' || c == '\r'
    || c == '\U{000B}' || c == '\U{000C}' || c == '\U{00A0}' || c == '\U{1680}'
    || ('\U{2000}' <= c && c <= '\U{200A}')
    || c == '\U{2028}' || c == '\U{2029}' || c == '\U{202F}' || c == '\U{205F}'
    || c == '\U{3000}' || c == '\U{FEFF}'
  }

  /** The character class `[\_\-\s\.]` of the label conversion. */
  predicate IsSeparator(c: char) {
    c == '_' || c == '-' || c == '.' || IsWhitespace(c)
  }

  predicate IsAsciiLower(c: char) {
    'a' <= c <= 'z'
  }

  /** `toUpperCase` restricted to ASCII: lower-case letters map to upper case, all else is kept. */
  function ToUpper(c: char): (u: char)
    ensures !IsAsciiLower(u)
    ensures IsSeparator(u) <==> IsSeparator(c)
    ensures !IsAsciiLower(c) ==> u == c
    ensures IsAsciiLower(c) ==> 'A' <= u <= 'Z' && u as int - 'A' as int == c as int - 'a' as int
  {
    if IsAsciiLower(c) then (c as int - 32) as char else c
  }

  /** `replace(/[\_\-\s\.]/g, ' ')`: every separator becomes a plain space. */
  function ReplaceSeparators(s: string): string {
    seq(|s|, i requires 0 <= i < |s| => if IsSeparator(s[i]) then ' ' else s[i])
  }

  /** `split(' ')`: the pieces between single spaces; there is always at least one. */
  function Split(s: string): (pieces: seq<string>)
    ensures |pieces| >= 1
    decreases |s|
  {
    if s == [] then [[]]
    else
      var rest := Split(s[1..]);
      if s[0] == ' ' then [[]] + rest
      else [[s[0]] + rest[0]] + rest[1..]
  }

  /** The pieces hold no space, and only characters of the text. */
  lemma {:induction false} SplitPieces(s: string)
    ensures forall k, i :: 0 <= k < |Split(s)| && 0 <= i < |Split(s)[k]| ==>
              Split(s)[k][i] != ' ' && Split(s)[k][i] in s
    decreases |s|
  {
    if s != [] {
      SplitPieces(s[1..]);
      var rest := Split(s[1..]);
      var pieces := Split(s);
      forall k, i | 0 <= k < |pieces| && 0 <= i < |pieces[k]|
        ensures pieces[k][i] != ' ' && pieces[k][i] in s
      {
        if s[0] == ' ' {
          assert k > 0 && pieces[k] == rest[k - 1];
        } else if k == 0 {
          assert pieces[0] == [s[0]] + rest[0];
          if i > 0 { assert pieces[0][i] == rest[0][i - 1]; }
        } else {
          assert pieces[k] == rest[k];
        }
      }
    }
  }

  /** `join(' ')`. */
  function Join(ts: seq<string>): string
    decreases |ts|
  {
    if |ts| == 0 then []
    else if |ts| == 1 then ts[0]
    else ts[0] + [' '] + Join(ts[1..])
  }

  /** `charAt(0).toUpperCase() + slice(1)`. */
  function Capitalize(t: string): string {
    if t == [] then [] else [ToUpper(t[0])] + t[1..]
  }

  /** The `map` step: every piece capitalized, in order. */
  function CapitalizeAll(ts: seq<string>): seq<string> {
    seq(|ts|, i requires 0 <= i < |ts| => Capitalize(ts[i]))
  }

  /** `filter(it => it)` on strings: the empty string is falsy and is dropped, all else is kept. */
  function NonEmpty(ts: seq<string>): (r: seq<string>)
    ensures |r| <= |ts|
    decreases |ts|
  {
    if |ts| == 0 then []
    else if ts[0] == [] then NonEmpty(ts[1..])
    else [ts[0]] + NonEmpty(ts[1..])
  }

  /** `r` is `s` with some elements left out, the others kept in their order. */
  predicate IsSubsequence(r: seq<string>, s: seq<string>)
    decreases |s|
  {
    if |r| == 0 then true
    else if |s| == 0 then false
    else if r[0] == s[0] then IsSubsequence(r[1..], s[1..])
    else IsSubsequence(r, s[1..])
  }

  /**
    `NonEmpty` keeps every non-empty string as often as it occurs, and no empty
    one, in the order of its input.
  */
  lemma {:induction false} NonEmptySpec(ts: seq<string>)
    ensures forall s :: s in NonEmpty(ts) <==> s in ts && s != []
    ensures forall s :: s != [] ==> multiset(NonEmpty(ts))[s] == multiset(ts)[s]
    ensures IsSubsequence(NonEmpty(ts), ts)
    decreases |ts|
  {
    if |ts| > 0 {
      NonEmptySpec(ts[1..]);
      assert ts == [ts[0]] + ts[1..];
      var r := NonEmpty(ts);
      if ts[0] != [] {
        assert r[0] == ts[0] && r[1..] == NonEmpty(ts[1..]);
      } else if |r| > 0 {
        assert r[0] in NonEmpty(ts[1..]);
      }
    }
  }

  /** A string on its own: kept exactly when it is not empty. */
  lemma NonEmptySingle(t: string)
    ensures NonEmpty([t]) == if t == [] then [] else [t]
  {
    assert [t][1..] == [];
  }

  /** Filtering a concatenation filters each part, in order. */
  lemma {:induction false} NonEmptyAppend(a: seq<string>, b: seq<string>)
    ensures NonEmpty(a + b) == NonEmpty(a) + NonEmpty(b)
    decreases |a|
  {
    if |a| > 0 {
      assert (a + b)[0] == a[0] && (a + b)[1..] == a[1..] + b;
      NonEmptyAppend(a[1..], b);
    } else {
      assert a + b == b;
    }
  }

  /** The words of the label, before they are joined. */
  function LabelWords(name: string): seq<string> {
    NonEmpty(CapitalizeAll(Split(ReplaceSeparators(name))))
  }

  function GenerateLabelFromName(name: string): string {
    Join(LabelWords(name))
  }

  /** A non-empty string that does not start with a lower-case letter. */
  predicate IsCapitalized(t: string) {
    |t| > 0 && !IsAsciiLower(t[0])
  }

  /** A capitalized run of non-separator characters. */
  predicate IsLabelWord(t: string) {
    IsCapitalized(t) && forall i :: 0 <= i < |t| ==> !IsSeparator(t[i])
  }

  /**
    The shape of a label: no separator other than the plain space, no space at
    either end, never two spaces in a row, and no word that starts with a
    lower-case letter.
  */
  predicate IsWellFormedLabel(r: string) {
    && (forall i :: 0 <= i < |r| && IsSeparator(r[i]) ==> r[i] == ' ')
    && (|r| > 0 ==> r[0] != ' ' && r[|r| - 1] != ' ')
    && (forall i :: 0 <= i < |r| - 1 && r[i] == ' ' ==> r[i + 1] != ' ')
    && (forall i :: 0 <= i < |r| && (i == 0 || r[i - 1] == ' ') ==> !IsAsciiLower(r[i]))
  }

  /** Splitting and rejoining on spaces gives back the original text. */
  lemma {:induction false} JoinSplit(s: string)
    ensures Join(Split(s)) == s
    decreases |s|
  {
    if s != [] {
      JoinSplit(s[1..]);
      var rest := Split(s[1..]);
      assert s == [s[0]] + s[1..];
      if s[0] == ' ' {
        JoinCons([], rest);
      } else if |rest| == 1 {
        assert Split(s) == [[s[0]] + rest[0]];
      } else {
        JoinCons([s[0]] + rest[0], rest[1..]);
        JoinCons(rest[0], rest[1..]);
        assert rest == [rest[0]] + rest[1..];
      }
    }
  }

  /** A piece with no space in front of the text: it extends the first piece of the rest. */
  lemma {:induction false} SplitWord(a: string, b: string)
    requires forall i :: 0 <= i < |a| ==> a[i] != ' '
    ensures Split(a + b) == [a + Split(b)[0]] + Split(b)[1..]
    decreases |a|
  {
    if a != [] {
      assert (a + b)[0] == a[0];
      assert (a + b)[1..] == a[1..] + b;
      SplitWord(a[1..], b);
      var rest := Split(a[1..] + b);
      assert rest[0] == a[1..] + Split(b)[0];
      assert rest[1..] == Split(b)[1..];
      assert Split(a + b) == [[a[0]] + rest[0]] + rest[1..];
      assert [a[0]] + (a[1..] + Split(b)[0]) == a + Split(b)[0];
    } else {
      assert a + b == b;
      assert a + Split(b)[0] == Split(b)[0];
      assert Split(b) == [Split(b)[0]] + Split(b)[1..];
    }
  }

  /** Joining space-free pieces and splitting again gives back the pieces. */
  lemma {:induction false} SplitJoin(ts: seq<string>)
    requires |ts| >= 1
    requires forall k, i :: 0 <= k < |ts| && 0 <= i < |ts[k]| ==> ts[k][i] != ' '
    ensures Split(Join(ts)) == ts
    decreases |ts|
  {
    if |ts| == 1 {
      SplitWord(ts[0], []);
      assert ts[0] + [] == ts[0];
    } else {
      var rest := Join(ts[1..]);
      SplitJoin(ts[1..]);
      assert Join(ts) == ts[0] + ([' '] + rest);
      SplitWord(ts[0], [' '] + rest);
      assert ([' '] + rest)[1..] == rest;
      assert Split([' '] + rest) == [[]] + Split(rest);
      assert ([[]] + Split(rest))[1..] == Split(rest) == ts[1..];
      assert ts[0] + [] == ts[0];
      assert ts == [ts[0]] + ts[1..];
    }
  }

  /** Every word of a label is a non-empty, separator-free, non-lower-case-initial string. */
  lemma LabelWordsAreWords(name: string)
    ensures forall k :: 0 <= k < |LabelWords(name)| ==> IsLabelWord(LabelWords(name)[k])
  {
    var replaced := ReplaceSeparators(name);
    var pieces := Split(replaced);
    SplitPieces(replaced);
    assert forall k, i :: 0 <= k < |pieces| && 0 <= i < |pieces[k]| ==> !IsSeparator(pieces[k][i]) by {
      forall k, i | 0 <= k < |pieces| && 0 <= i < |pieces[k]|
        ensures !IsSeparator(pieces[k][i])
      {
        var c := pieces[k][i];
        assert c in replaced && c != ' ';
        var j :| 0 <= j < |replaced| && replaced[j] == c;
      }
    }
    var caps := CapitalizeAll(pieces);
    forall k | 0 <= k < |caps| && caps[k] != []
      ensures IsLabelWord(caps[k])
    {
      assert caps[k] == Capitalize(pieces[k]);
      forall i | 0 <= i < |caps[k]| ensures !IsSeparator(caps[k][i]) {
        if i == 0 {
          assert caps[k][0] == ToUpper(pieces[k][0]);
        } else {
          assert caps[k][i] == pieces[k][i];
        }
      }
    }
    NonEmptyKeeps(caps);
  }

  /** Every element `NonEmpty` keeps is a non-empty element of its input. */
  lemma {:induction false} NonEmptyKeeps(ts: seq<string>)
    requires forall k :: 0 <= k < |ts| && ts[k] != [] ==> IsLabelWord(ts[k])
    ensures forall k :: 0 <= k < |NonEmpty(ts)| ==> IsLabelWord(NonEmpty(ts)[k])
    decreases |ts|
  {
    if |ts| > 0 {
      NonEmptyKeeps(ts[1..]);
    }
  }

  /** Joining words with single spaces gives a well-formed label. */
  lemma {:induction false} JoinWellFormed(ts: seq<string>)
    requires forall k :: 0 <= k < |ts| ==> IsLabelWord(ts[k])
    ensures IsWellFormedLabel(Join(ts))
    ensures |ts| > 0 ==> |Join(ts)| > 0
    decreases |ts|
  {
    if |ts| == 1 {
      assert IsLabelWord(ts[0]);
    } else if |ts| > 1 {
      var t := ts[0];
      var j := Join(ts[1..]);
      JoinWellFormed(ts[1..]);
      assert IsLabelWord(t);
      assert IsLabelWord(ts[1..][0]);
      var r := t + [' '] + j;
      assert Join(ts) == r;
      assert |j| > 0;
      assert forall i :: 0 <= i < |t| ==> r[i] == t[i] && r[i] != ' ';
      assert r[|t|] == ' ';
      assert forall i :: |t| < i < |r| ==> r[i] == j[i - |t| - 1];
      assert IsWellFormedLabel(r) by {
        forall i | 0 <= i < |r| && (i == 0 || r[i - 1] == ' ')
          ensures !IsAsciiLower(r[i])
        {
          if i > |t| {
            assert i - |t| - 1 == 0 || j[i - |t| - 2] == ' ';
          }
        }
        forall i | 0 <= i < |r| - 1 && r[i] == ' '
          ensures r[i + 1] != ' '
        {
          if i > |t| {
            assert j[i - |t| - 1] == ' ';
          }
        }
      }
    }
  }

  /**
    Label format: the result of `GenerateLabelFromName` has no separator but
    single spaces between words, no space at either end, and every word starts
    with a character that is not a lower-case letter.
  */
  lemma LabelIsWellFormed(name: string)
    ensures IsWellFormedLabel(GenerateLabelFromName(name))
  {
    LabelWordsAreWords(name);
    JoinWellFormed(LabelWords(name));
  }

  /** A capitalized string is its own capitalization. */
  lemma CapitalizeFixed(t: string)
    requires IsCapitalized(t)
    ensures Capitalize(t) == t
  {
    assert [ToUpper(t[0])] + t[1..] == [t[0]] + t[1..] == t;
  }

  lemma CapitalizeAllCons(ts: seq<string>)
    requires |ts| > 0
    ensures CapitalizeAll(ts) == [Capitalize(ts[0])] + CapitalizeAll(ts[1..])
  {
  }

  lemma NonEmptyCons(t: string, ts: seq<string>)
    requires t != []
    ensures NonEmpty([t] + ts) == [t] + NonEmpty(ts)
  {
    assert ([t] + ts)[1..] == ts;
  }

  /** Words pass through the conversion chain unchanged. */
  lemma {:induction false} WordsAreFixed(ts: seq<string>)
    requires forall k :: 0 <= k < |ts| ==> IsCapitalized(ts[k])
    ensures NonEmpty(CapitalizeAll(ts)) == ts
    decreases |ts|
  {
    if |ts| > 0 {
      var tail := ts[1..];
      assert forall k :: 0 <= k < |tail| ==> IsCapitalized(tail[k]) by {
        forall k | 0 <= k < |tail| ensures IsCapitalized(tail[k]) {
          assert tail[k] == ts[k + 1];
        }
      }
      WordsAreFixed(tail);
      CapitalizeAllCons(ts);
      CapitalizeFixed(ts[0]);
      NonEmptyCons(ts[0], CapitalizeAll(tail));
      assert ts == [ts[0]] + tail;
    }
  }

  /** A label converts to itself: the conversion is idempotent. */
  lemma LabelIsIdempotent(name: string)
    ensures GenerateLabelFromName(GenerateLabelFromName(name)) == GenerateLabelFromName(name)
  {
    var ts := LabelWords(name);
    var r := Join(ts);
    LabelWordsAreWords(name);
    LabelIsWellFormed(name);
    assert ReplaceSeparators(r) == r;
    if |ts| == 0 {
      assert r == [];
      assert Split(r) == [[]];
      assert CapitalizeAll([[]]) == [[]];
    } else {
      SplitJoin(ts);
      WordsAreFixed(ts);
    }
  }

  /** The label of a name, once its separators have been replaced, from the space-free pieces. */
  lemma LabelFromPieces(name: string, pieces: seq<string>)
    requires |pieces| >= 1
    requires forall k :: 0 <= k < |pieces| ==> ' ' !in pieces[k]
    requires ReplaceSeparators(name) == Join(pieces)
    ensures GenerateLabelFromName(name) == Join(NonEmpty(CapitalizeAll(pieces)))
  {
    assert forall k, i :: 0 <= k < |pieces| && 0 <= i < |pieces[k]| ==> pieces[k][i] != ' ' by {
      forall k, i | 0 <= k < |pieces| && 0 <= i < |pieces[k]| ensures pieces[k][i] != ' ' {
        assert pieces[k][i] in pieces[k];
      }
    }
    SplitJoin(pieces);
  }

  lemma ReplaceAppend(a: string, b: string)
    ensures ReplaceSeparators(a + b) == ReplaceSeparators(a) + ReplaceSeparators(b)
  {
  }

  lemma JoinCons(t: string, ts: seq<string>)
    requires |ts| >= 1
    ensures Join([t] + ts) == t + [' '] + Join(ts)
  {
    assert ([t] + ts)[1..] == ts;
  }

  /** The conversion of `event_time.stamp`. */
  lemma EventTimeStampExample()
    ensures GenerateLabelFromName("event_time.stamp") == "Event Time Stamp"
  {
    EventTimeStampPieces();
    EventTimeStampWords();
    LabelFromPieces("event_time.stamp", ["event", "time", "stamp"]);
  }

  lemma EventTimeStampPieces()
    ensures ReplaceSeparators("event_time.stamp") == Join(["event", "time", "stamp"])
  {
    assert "event_time.stamp" == "event" + "_" + "time" + "." + "stamp";
    ReplaceAppend("event" + "_" + "time" + ".", "stamp");
    ReplaceAppend("event" + "_" + "time", ".");
    ReplaceAppend("event" + "_", "time");
    ReplaceAppend("event", "_");
    assert ReplaceSeparators("event") == "event";
    assert ReplaceSeparators("time") == "time";
    assert ReplaceSeparators("stamp") == "stamp";
    assert ReplaceSeparators("_") == " " && ReplaceSeparators(".") == " ";
    JoinCons("time", ["stamp"]);
    JoinCons("event", ["time", "stamp"]);
  }

  lemma EventTimeStampWords()
    ensures Join(NonEmpty(CapitalizeAll(["event", "time", "stamp"]))) == "Event Time Stamp"
  {
    var words := ["Event", "Time", "Stamp"];
    assert CapitalizeAll(["event", "time", "stamp"]) == words by {
      assert Capitalize("event") == "Event" by { assert ToUpper('e') == 'E'; assert "event"[1..] == "vent"; }
      assert Capitalize("time") == "Time" by { assert ToUpper('t') == 'T'; assert "time"[1..] == "ime"; }
      assert Capitalize("stamp") == "Stamp" by { assert ToUpper('s') == 'S'; assert "stamp"[1..] == "tamp"; }
    }
    assert NonEmpty(words) == words;
    JoinCons("Time", ["Stamp"]);
    JoinCons("Event", ["Time", "Stamp"]);
  }

  /** The conversion of `  multi__sep--name`: runs of separators leave no trace. */
  lemma MultiSeparatorExample()
    ensures GenerateLabelFromName("  multi__sep--name") == "Multi Sep Name"
  {
    MultiSeparatorPieces();
    MultiSeparatorWords();
    LabelFromPieces("  multi__sep--name", ["", "", "multi", "", "sep", "", "name"]);
  }

  lemma MultiSeparatorPieces()
    ensures ReplaceSeparators("  multi__sep--name") == Join(["", "", "multi", "", "sep", "", "name"])
  {
    MultiSeparatorReplaced();
    MultiSeparatorJoined();
  }

  lemma MultiSeparatorReplaced()
    ensures ReplaceSeparators("  multi__sep--name") == "  multi  sep  name"
  {
    assert "  multi__sep--name" == "  " + "multi" + "__" + "sep" + "--" + "name";
    ReplaceAppend("  " + "multi" + "__" + "sep" + "--", "name");
    ReplaceAppend("  " + "multi" + "__" + "sep", "--");
    ReplaceAppend("  " + "multi" + "__", "sep");
    ReplaceAppend("  " + "multi", "__");
    ReplaceAppend("  ", "multi");
  }

  lemma MultiSeparatorJoined()
    ensures Join(["", "", "multi", "", "sep", "", "name"]) == "  multi  sep  name"
  {
    MultiSeparatorTail();
    JoinCons("multi", ["", "sep", "", "name"]);
    JoinCons("", ["multi", "", "sep", "", "name"]);
    JoinCons("", ["", "multi", "", "sep", "", "name"]);
  }

  lemma MultiSeparatorTail()
    ensures Join(["", "sep", "", "name"]) == " sep  name"
  {
    JoinCons("", ["name"]);
    JoinCons("sep", ["", "name"]);
    JoinCons("", ["sep", "", "name"]);
  }

  lemma MultiSeparatorWords()
    ensures Join(NonEmpty(CapitalizeAll(["", "", "multi", "", "sep", "", "name"]))) == "Multi Sep Name"
  {
    var caps := ["", "", "Multi", "", "Sep", "", "Name"];
    assert CapitalizeAll(["", "", "multi", "", "sep", "", "name"]) == caps by {
      assert Capitalize("multi") == "Multi" by { assert ToUpper('m') == 'M'; assert "multi"[1..] == "ulti"; }
      assert Capitalize("sep") == "Sep" by { assert ToUpper('s') == 'S'; assert "sep"[1..] == "ep"; }
      assert Capitalize("name") == "Name" by { assert ToUpper('n') == 'N'; assert "name"[1..] == "ame"; }
    }
    assert NonEmpty(caps) == ["Multi", "Sep", "Name"];
    JoinCons("Sep", ["Name"]);
    JoinCons("Multi", ["Sep", "Name"]);
  }
}
