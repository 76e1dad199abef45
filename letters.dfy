/**
  `count_letters` of chapter 3, the `setdefault` version: a histogram of the
  characters of a word, built in a dictionary one character at a time.
 */
module Letters {
  import opened Python

  /** What `count_letters(word)` returns: one key per character occurring in
      the word, mapped to its number of occurrences, and no other key. */
  ghost predicate IsLetterCount(word: string, counts: map<char, nat>)
  {
    && (forall c :: c in counts <==> c in word)
    && (forall c :: c in counts ==> counts[c] == multiset(word)[c])
  }

  /** `count_letters(word)` */
  method CountLetters(word: string) returns (counts: map<char, nat>)
    ensures IsLetterCount(word, counts)
  {
    counts := map[];
    for i := 0 to |word|
      invariant IsLetterCount(word[..i], counts)
    {
      var letter := word[i];
      assert word[..i + 1] == word[..i] + [letter];
      if letter !in counts {
        counts := counts[letter := 0];  // setdefault(letter, 0)
      }
      counts := counts[letter := counts[letter] + 1];
    }
    assert word[..|word|] == word;
  }

  /** `sum(d[k] for k in keys)`. */
  function SumOver(counts: map<char, nat>, keys: seq<char>): nat
    requires forall k :: k in keys ==> k in counts
  {
    if keys == [] then 0 else counts[keys[0]] + SumOver(counts, keys[1..])
  }

  /** The occurrences in `letters` of the characters listed in keys. */
  function Occurrences(letters: multiset<char>, keys: seq<char>): nat
  {
    if keys == [] then 0 else letters[keys[0]] + Occurrences(letters, keys[1..])
  }

  lemma {:induction false} OccurrencesOfOther(letters: multiset<char>, c: char, keys: seq<char>)
    requires c !in keys
    ensures Occurrences(letters + multiset{c}, keys) == Occurrences(letters, keys)
  {
    if keys != [] {
      OccurrencesOfOther(letters, c, keys[1..]);
    }
  }

  lemma {:induction false} OccurrencesOfListed(letters: multiset<char>, c: char, keys: seq<char>)
    requires NoDuplicates(keys) && c in keys
    ensures Occurrences(letters + multiset{c}, keys) == Occurrences(letters, keys) + 1
  {
    if keys[0] == c {
      assert c !in keys[1..] by {
        forall j | 0 <= j < |keys| - 1 ensures keys[1..][j] != c {
          assert keys[0] != keys[j + 1];
        }
      }
      OccurrencesOfOther(letters, c, keys[1..]);
    } else {
      OccurrencesOfListed(letters, c, keys[1..]);
    }
  }

  /** Listing every character of a word once counts each of its letters once. */
  lemma {:induction false} OccurrencesOfWord(word: string, keys: seq<char>)
    requires NoDuplicates(keys)
    requires forall c :: c in word ==> c in keys
    ensures Occurrences(multiset(word), keys) == |word|
  {
    if word != [] {
      var init, last := word[..|word| - 1], word[|word| - 1];
      assert word == init + [last];
      OccurrencesOfWord(init, keys);
      OccurrencesOfListed(multiset(init), last, keys);
    } else {
      NoOccurrences(keys);
    }
  }

  lemma {:induction false} NoOccurrences(keys: seq<char>)
    ensures Occurrences(multiset{}, keys) == 0
  {
    if keys != [] {
      NoOccurrences(keys[1..]);
    }
  }

  lemma {:induction false} SumOverIsOccurrences(word: string, counts: map<char, nat>, keys: seq<char>)
    requires IsLetterCount(word, counts)
    requires forall k :: k in keys ==> k in counts
    ensures SumOver(counts, keys) == Occurrences(multiset(word), keys)
  {
    if keys != [] {
      SumOverIsOccurrences(word, counts, keys[1..]);
    }
  }

  /** The values of `count_letters(word)` add up to `len(word)`, in whatever
      order the keys are enumerated. */
  lemma CountsSumToLength(word: string, counts: map<char, nat>, keys: seq<char>)
    requires IsLetterCount(word, counts)
    requires NoDuplicates(keys) && forall k :: k in keys <==> k in counts
    ensures SumOver(counts, keys) == |word|
  {
    SumOverIsOccurrences(word, counts, keys);
    OccurrencesOfWord(word, keys);
  }

  /** The chapter's call: `count_letters('AAABBC') == {'A': 3, 'B': 2, 'C': 1}`. */
  method ChapterExample() returns (counts: map<char, nat>)
    ensures counts == map['A' := 3, 'B' := 2, 'C' := 1]
  {
    counts := CountLetters("AAABBC");
    var word := "AAABBC";
    assert multiset(word) == multiset{'A', 'A', 'A', 'B', 'B', 'C'};
    assert counts.Keys == {'A', 'B', 'C'} by {
      forall c ensures c in counts <==> c in {'A', 'B', 'C'} {
        assert c in word <==> c in {'A', 'B', 'C'};
      }
    }
  }
}
