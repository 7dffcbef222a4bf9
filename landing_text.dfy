/**
 * The string helpers of the dashboard page: the text of a tab, made from its camelCase key, and the
 * shortened form in which addresses and transaction ids are shown in table cells.
 */
module LandingText {
  import opened Wrappers
  import opened TableData

  predicate IsCapital(c: char) {
    'A' <= c <= 'Z'
  }

  /** `toUpperCase` on one character, for ASCII letters. */
  function ToUpper(c: char): (u: char)
    ensures 'a' <= c <= 'z' ==> IsCapital(u) && u as int == c as int - 32
    ensures !('a' <= c <= 'z') ==> u == c
  {
    if 'a' <= c <= 'z' then (c as int - 32) as char else c
  }

  function CapitalCount(s: string): nat {
    if s == [] then 0 else (if IsCapital(s[0]) then 1 else 0) + CapitalCount(s[1..])
  }

  /** `s` with every space removed. */
  function WithoutSpaces(s: string): string {
    if s == [] then [] else (if s[0] == ' ' then [] else [s[0]]) + WithoutSpaces(s[1..])
  }

  /** `replace(/([A-Z])/g, " $1")`: a space goes in front of every capital letter. */
  function SpaceBeforeCapitals(s: string): (r: string)
    ensures |r| == |s| + CapitalCount(s)
    ensures s != [] && !IsCapital(s[0]) ==> r != [] && r[0] == s[0]
  {
    if s == [] then []
    else (if IsCapital(s[0]) then [' ', s[0]] else [s[0]]) + SpaceBeforeCapitals(s[1..])
  }

  /** `replace(/^./, str => str.toUpperCase())`: only the first character changes. */
  function CapitalizeFirst(s: string): (r: string)
    ensures |r| == |s|
    ensures s != [] ==> r[0] == ToUpper(s[0]) && r[1..] == s[1..]
  {
    if s == [] then [] else [ToUpper(s[0])] + s[1..]
  }

  /**
   * The text of a tab: its key with a space before each capital and the first letter capitalised. It is one
   * character longer per capital letter of the key, and a key that starts in lower case keeps that letter
   * in front, capitalised (TabLabelOfCamelCase and CapitalFirstKeyGetsLeadingSpace give the rest).
   */
  function TabLabel(tab: string): (text: string)
    ensures |text| == |tab| + CapitalCount(tab)
    ensures tab != [] && !IsCapital(tab[0]) ==> text[0] == ToUpper(tab[0])
  {
    CapitalizeFirst(SpaceBeforeCapitals(tab))
  }

  lemma {:induction false} WithoutSpacesAppend(a: string, b: string)
    ensures WithoutSpaces(a + b) == WithoutSpaces(a) + WithoutSpaces(b)
  {
    if a == [] {
      assert a + b == b;
    } else {
      var head := if a[0] == ' ' then [] else [a[0]];
      assert (a + b)[0] == a[0];
      assert (a + b)[1..] == a[1..] + b;
      calc {
        WithoutSpaces(a + b);
        head + WithoutSpaces(a[1..] + b);
        { WithoutSpacesAppend(a[1..], b); }
        head + (WithoutSpaces(a[1..]) + WithoutSpaces(b));
        (head + WithoutSpaces(a[1..])) + WithoutSpaces(b);
        WithoutSpaces(a) + WithoutSpaces(b);
      }
    }
  }

  lemma {:induction false} SpaceBeforeCapitalsAppend(a: string, b: string)
    ensures SpaceBeforeCapitals(a + b) == SpaceBeforeCapitals(a) + SpaceBeforeCapitals(b)
  {
    if a == [] {
      assert a + b == b;
    } else {
      var head := if IsCapital(a[0]) then [' ', a[0]] else [a[0]];
      assert (a + b)[0] == a[0];
      assert (a + b)[1..] == a[1..] + b;
      calc {
        SpaceBeforeCapitals(a + b);
        head + SpaceBeforeCapitals(a[1..] + b);
        { SpaceBeforeCapitalsAppend(a[1..], b); }
        head + (SpaceBeforeCapitals(a[1..]) + SpaceBeforeCapitals(b));
        (head + SpaceBeforeCapitals(a[1..])) + SpaceBeforeCapitals(b);
        SpaceBeforeCapitals(a) + SpaceBeforeCapitals(b);
      }
    }
  }

  /** Removing the spaces from the spaced form gives back the key with its own spaces removed. */
  lemma {:induction false} SpacesAreTheOnlyInsertion(s: string)
    ensures WithoutSpaces(SpaceBeforeCapitals(s)) == WithoutSpaces(s)
  {
    if s != [] {
      var head := if IsCapital(s[0]) then [' ', s[0]] else [s[0]];
      WithoutSpacesAppend(head, SpaceBeforeCapitals(s[1..]));
      SpacesAreTheOnlyInsertion(s[1..]);
      WithoutSpacesAppend([s[0]], s[1..]);
      assert s == [s[0]] + s[1..];
      assert WithoutSpaces(head) == WithoutSpaces([s[0]]) by {
        if IsCapital(s[0]) {
          assert head[1..] == [s[0]];
        }
      }
    }
  }

  /** Every capital letter of the spaced form has a space right before it. */
  lemma {:induction false} EveryCapitalFollowsASpace(s: string)
    ensures forall i :: 0 <= i < |SpaceBeforeCapitals(s)| && IsCapital(SpaceBeforeCapitals(s)[i]) ==>
      0 < i && SpaceBeforeCapitals(s)[i - 1] == ' '
  {
    if s != [] {
      EveryCapitalFollowsASpace(s[1..]);
      var head := if IsCapital(s[0]) then [' ', s[0]] else [s[0]];
      var rest := SpaceBeforeCapitals(s[1..]);
      assert SpaceBeforeCapitals(s) == head + rest;
      forall i | 0 <= i < |head + rest| && IsCapital((head + rest)[i])
        ensures 0 < i && (head + rest)[i - 1] == ' '
      {
        if i >= |head| {
          var j := i - |head|;
          assert (head + rest)[i] == rest[j];
          if j > 0 {
            assert (head + rest)[i - 1] == rest[j - 1];
          } else {
            assert false;
          }
        }
      }
    }
  }

  /**
   * The text of a camelCase key without spaces: its first letter is capitalised, every capital letter is
   * preceded by a space, and deleting the spaces gives back the key with its first letter capitalised.
   */
  lemma {:induction false} TabLabelOfCamelCase(tab: string)
    requires tab != [] && 'a' <= tab[0] <= 'z'
    requires forall i :: 0 <= i < |tab| ==> tab[i] != ' '
    ensures var text := TabLabel(tab);
      && |text| == |tab| + CapitalCount(tab)
      && text[0] == ToUpper(tab[0])
      && (forall i :: 1 <= i < |text| && IsCapital(text[i]) ==> text[i - 1] == ' ')
      && WithoutSpaces(text) == [ToUpper(tab[0])] + tab[1..]
  {
    var spaced := SpaceBeforeCapitals(tab);
    var text := TabLabel(tab);
    EveryCapitalFollowsASpace(tab);
    SpacesAreTheOnlyInsertion(tab);
    NoSpacesUnchanged(tab);
    assert spaced[0] == tab[0];
    assert text == [ToUpper(tab[0])] + spaced[1..];
    WithoutSpacesAppend([ToUpper(tab[0])], spaced[1..]);
    WithoutSpacesAppend([tab[0]], spaced[1..]);
    assert spaced == [tab[0]] + spaced[1..];
    WithoutSpacesAppend([tab[0]], tab[1..]);
    assert tab == [tab[0]] + tab[1..];
    forall i | 1 <= i < |text| && IsCapital(text[i]) ensures text[i - 1] == ' ' {
      assert text[i] == spaced[i];
      if i > 1 { assert text[i - 1] == spaced[i - 1]; } else { assert false; }
    }
  }

  lemma {:induction false} NoSpacesUnchanged(s: string)
    requires forall i :: 0 <= i < |s| ==> s[i] != ' '
    ensures WithoutSpaces(s) == s
  {
    if s != [] {
      NoSpacesUnchanged(s[1..]);
    }
  }

  lemma {:induction false} NoCapitalsUnspaced(s: string)
    requires forall i :: 0 <= i < |s| ==> !IsCapital(s[i])
    ensures SpaceBeforeCapitals(s) == s
  {
    if s != [] {
      NoCapitalsUnspaced(s[1..]);
    }
  }

  /** A capitalised word with no other capital gets one space, in front. */
  lemma {:induction false} CapitalisedWordSpaced(word: string)
    requires word != [] && IsCapital(word[0])
    requires forall i :: 1 <= i < |word| ==> !IsCapital(word[i])
    ensures SpaceBeforeCapitals(word) == " " + word
  {
    var tail := word[1..];
    forall i | 0 <= i < |tail| ensures !IsCapital(tail[i]) {
      assert tail[i] == word[i + 1];
    }
    NoCapitalsUnspaced(tail);
    calc {
      SpaceBeforeCapitals(word);
      [' ', word[0]] + SpaceBeforeCapitals(tail);
      [' ', word[0]] + tail;
      { assert word == [word[0]] + tail; }
      [' '] + word;
    }
  }

  /** A lower-case word followed by a capitalised word gets exactly one space, between the two. */
  lemma {:induction false} TwoWordSpaced(first: string, second: string)
    requires forall i :: 0 <= i < |first| ==> !IsCapital(first[i])
    requires second != [] && IsCapital(second[0])
    requires forall i :: 1 <= i < |second| ==> !IsCapital(second[i])
    ensures SpaceBeforeCapitals(first + second) == first + " " + second
  {
    NoCapitalsUnspaced(first);
    CapitalisedWordSpaced(second);
    SpaceBeforeCapitalsAppend(first, second);
    assert first + " " + second == first + (" " + second);
  }

  /** The label of a key made of a lower-case word followed by a capitalised word. */
  lemma {:induction false} TwoWordLabel(key: string, first: string, second: string, text: string)
    requires first != [] && 'a' <= first[0] <= 'z'
    requires forall i :: 0 <= i < |first| ==> !IsCapital(first[i])
    requires second != [] && IsCapital(second[0])
    requires forall i :: 1 <= i < |second| ==> !IsCapital(second[i])
    requires key == first + second
    requires text == [ToUpper(first[0])] + first[1..] + " " + second
    ensures TabLabel(key) == text
  {
    TwoWordSpaced(first, second);
    var spaced := first + " " + second;
    assert spaced[0] == first[0];
    assert spaced[1..] == first[1..] + " " + second;
  }

  // The labels of the five tabs.

  lemma TabLabelAcceptedDelegations()
    ensures TabLabel("acceptedDelegations") == "Accepted Delegations"
  {
    var first, second := "accepted", "Delegations";
    assert first[1..] == "ccepted";
    assert [ToUpper('a')] + "ccepted" + " " + "Delegations" == "Accepted Delegations";
    assert first + second == "acceptedDelegations";
    TwoWordLabel("acceptedDelegations", first, second, "Accepted Delegations");
  }

  lemma TabLabelPendingTransactions()
    ensures TabLabel("pendingTransactions") == "Pending Transactions"
  {
    var first, second := "pending", "Transactions";
    assert first[1..] == "ending";
    assert [ToUpper('p')] + "ending" + " " + "Transactions" == "Pending Transactions";
    assert first + second == "pendingTransactions";
    TwoWordLabel("pendingTransactions", first, second, "Pending Transactions");
  }

  lemma TabLabelPreviousDelegations()
    ensures TabLabel("previousDelegations") == "Previous Delegations"
  {
    var first, second := "previous", "Delegations";
    assert first[1..] == "revious";
    assert [ToUpper('p')] + "revious" + " " + "Delegations" == "Previous Delegations";
    assert first + second == "previousDelegations";
    TwoWordLabel("previousDelegations", first, second, "Previous Delegations");
  }

  lemma TabLabelCommittedDelegations()
    ensures TabLabel("committedDelegations") == "Committed Delegations"
  {
    var first, second := "committed", "Delegations";
    assert first[1..] == "ommitted";
    assert [ToUpper('c')] + "ommitted" + " " + "Delegations" == "Committed Delegations";
    assert first + second == "committedDelegations";
    TwoWordLabel("committedDelegations", first, second, "Committed Delegations");
  }

  /** The label of a key that is one lower-case word. */
  lemma {:induction false} OneWordLabel(key: string, text: string)
    requires key != [] && 'a' <= key[0] <= 'z'
    requires forall i :: 0 <= i < |key| ==> !IsCapital(key[i])
    requires text == [ToUpper(key[0])] + key[1..]
    ensures TabLabel(key) == text
  {
    NoCapitalsUnspaced(key);
  }

  lemma TabLabelDelegations()
    ensures TabLabel("delegations") == "Delegations"
  {
    var word := "delegations";
    assert word[1..] == "elegations";
    assert [ToUpper('d')] + "elegations" == "Delegations";
    OneWordLabel(word, "Delegations");
  }

  /** A key that starts with a capital gets a leading space, since the first character is then the space. */
  lemma CapitalFirstKeyGetsLeadingSpace(tab: string)
    requires tab != [] && IsCapital(tab[0])
    ensures TabLabel(tab)[0] == ' ' && TabLabel(tab)[1] == tab[0]
  {
  }

  /** `s.slice(0, n)` */
  function SliceHead(s: string, n: nat): (r: string)
    ensures |r| == if n <= |s| then n else |s|
    ensures r <= s
  {
    if n <= |s| then s[..n] else s
  }

  /** `s.slice(-n)` for a positive `n`: the last `n` characters, or all of `s` when it is shorter. */
  function SliceTail(s: string, n: nat): (r: string)
    ensures |r| == if n <= |s| then n else |s|
    ensures r == s[|s| - |r|..]
  {
    if n <= |s| then s[|s| - n..] else s
  }

  /** `${s.slice(0, 3)}...${s.slice(-3)}`: the first three and the last three characters around "...". */
  function Shorten(s: string): (r: string)
    ensures var k := if 3 <= |s| then 3 else |s|;
      && |r| == 2 * k + 3
      && r[..k] == s[..k]
      && r[k..k + 3] == "..."
      && r[k + 3..] == s[|s| - k..]
  {
    SliceHead(s, 3) + "..." + SliceTail(s, 3)
  }

  /** Any value of three characters or more is shown in nine characters. */
  lemma ShortenedWidth(s: string)
    requires 3 <= |s|
    ensures |Shorten(s)| == 9
  {
  }

  /** A value of at most three characters is shown twice, around the dots. */
  lemma ShortValueShownTwice(s: string)
    requires |s| <= 3
    ensures Shorten(s) == s + "..." + s
  {
  }

  /** Shortening forgets the middle: two addresses that differ only there look the same. */
  lemma ShortenLosesTheMiddle()
    ensures Shorten("SP1abc9XYZ") == Shorten("SP1def9XYZ") == "SP1...XYZ"
  {
  }

  /**
   * The text of the stacker and PoX address cells, from the row field (`None` when it is missing). `!address`
   * blanks every falsy value, a missing one included; a truthy string is shortened; any other truthy value
   * has no `slice` method, so the cell throws (`None`).
   */
  function AddressText(address: Option<Value>): (r: Option<string>)
    ensures r == Some("") <==> !FieldTruthy(address)
    ensures r.Some? && r.value != "" <==> address.Some? && address.value.Str? && address.value.s != ""
    ensures r.Some? && r.value != "" ==> r.value == Shorten(address.value.s)
  {
    if !FieldTruthy(address) then Some("")
    else if address.value.Str? then Some(Shorten(address.value.s))
    else None
  }

  /**
   * The transaction id cell has no emptiness check: a string id is shortened, and an empty one renders as
   * "..."; a missing, `null` or other non-string id has no `slice` method, so the cell throws (`None`).
   */
  function TxidText(txid: Option<Value>): (r: Option<string>)
    ensures r.Some? <==> txid.Some? && txid.value.Str?
    ensures r.Some? ==> r.value == Shorten(txid.value.s)
    ensures txid == Some(Str("")) ==> r == Some("...")
  {
    if txid.Some? && txid.value.Str? then
      var text := Shorten(txid.value.s);
      assert txid.value.s == "" ==> text == text[0..3];
      Some(text)
    else None
  }
}
