# Fluent Python chapter fragments, modelled in Dafny

The repository transcribes examples from *Fluent Python*. Among them are a few
small data structures and functions whose behaviour can be stated exactly,
and this project models those:

- the card decks: the read-only `FrenchDeck` of chapter 1 and the
  `MutableSequence` `Deck` of chapter 11;
- the integer `Vector` with `+`, `*` and truthiness;
- `count_letters`, the `setdefault` version;
- the two running averagers built by `make_averager` closures;
- the recursive `factorial` and `fibonacci`;
- the `Tombola` container, with its `load`/`pick` operations and the
  `inspect`/`loaded` built on them;
- the `Reverse` iterator class and the `reverse` generator.

`Expert.py` repeats the early chapters of `Book.py`, renaming only a few
variables. One model of `FrenchDeck`, `Vector` and `count_letters` therefore
serves both files.

Modules, one per concept:

- `Python` (python.dfy) holds the built-in behaviour the code relies on:
  - `IndexError`, `LookupError` and `StopIteration`;
  - how a list reads an integer position (negative positions count from the end);
  - what `lst[i] = v`, `del lst[i]`, `lst.insert(i, v)` and `lst[start::step]` do.
- `Cards` (cards.dfy) holds `Card`, the rank and suit lists, the deck
  comprehension, `FrenchDeck` (a value, since nothing changes it after
  construction) and `Deck` (a class whose list field the mutators reassign).
- `Vectors` (vectors.dfy), `Letters` (letters.dfy), `Averagers` (averagers.dfy),
  `Recursion` (recursion.dfy), `Tombolas` (tombola.dfy) and `Iterators`
  (iterators.dfy) hold the other fragments.
- `Arithmetic` (arithmetic.dfy) holds the multiplication and division facts
  that the proofs use.

Closures become classes: each variable a closure captures is a field, and
calling the closure is the method `Average`. The `Tombola` base class is
abstract and the chapter gives no subclass. The model therefore supplies a
list-backed container whose `pick` removes the item at an arbitrarily chosen
position. `inspect` and `loaded` are written exactly as the base class
writes them, on top of `Load` and `Pick`.

Three facts about the container's code shape its contracts:

- `pick` on an empty container raises `LookupError`.
- `inspect` drains the container with `pick` and loads the drained items back.
  Afterwards the container holds the same multiset of items, not necessarily
  in the same arrangement.
- `loaded` runs `inspect`, so it too may change the arrangement of the items.

## Model

| member | source | states |
|---|---|---|
| `Python.Slot` | Book.py:636-637 | an integer position addresses a slot exactly when it lies in -len .. len-1; that slot is below len and congruent to the position modulo len; anything else raises IndexError |
| `Python.GetItem` | Book.py:636-637 | `lst[pos]` succeeds exactly for -len <= pos < len and returns `lst[pos]` or, for a negative pos, `lst[len + pos]` |
| `Python.SetItem` | Book.py:639-640 | `lst[pos] = v` succeeds exactly for -len <= pos < len; the length is kept, reading pos afterwards gives v, and every other slot keeps its element |
| `Python.DelItem` | Book.py:642-643 | `del lst[pos]` succeeds exactly for -len <= pos < len; the list is one shorter, the elements before the slot stay and those after it shift down by one, and the removed element is the only one missing |
| `Python.InsertSlot` | Book.py:645-646 | `insert` counts a negative position from the end and clamps a position outside the list to its nearer end |
| `Python.Insert` | Book.py:645-646 | `lst.insert(pos, v)` lengthens the list by one, puts v at the clamped slot, keeps the elements before it and shifts the rest up by one |
| `Python.DelItemUndoesInsert` | Book.py:642-646 | deleting at the position of an insert gives the original list back |
| `Python.SetItemRestores` | Book.py:636-640 | writing back the element a position held restores the list |
| `Python.StepSlice` | Book.py:38 | `lst[start::step]` is non-empty exactly when start is inside the list; its k-th element is `lst[start + k * step]`, and it reaches every such position inside the list |
| `Cards.Comprehension` | Book.py:16 | the comprehension itself, suit as the outer loop; its length is stated by `ComprehensionLength` and the card at each position by `ComprehensionAtPair` and `ComprehensionAt` |
| `Cards.SuitRow` | Book.py:16 | the inner loop of the comprehension yields one card per rank, in rank order, all of one suit |
| `Cards.ComprehensionLength` | Book.py:16 | the comprehension yields one card per (suit, rank) pair |
| `Cards.ComprehensionAtPair` | Book.py:16 | the card of suit s and rank r sits at position s * 13 + r (13 ranks): the suit is the outer loop |
| `Cards.ComprehensionAt` | Book.py:16 | position i holds `(ranks[i % n], suits[i / n])`, n being the number of ranks |
| `Cards.ComprehensionNoDuplicates` | Book.py:14-16 | distinct ranks and distinct suits give pairwise-distinct cards |
| `Cards.ComprehensionMembers` | Book.py:16 | a card is in the deck exactly when its rank is listed and its suit is listed |
| `Cards.RanksAndSuitsDistinct` | Book.py:10-11 | there are 13 distinct ranks and 4 distinct suits |
| `Cards.NewCardsLayout` | Book.py:10-16 | a new deck holds 52 pairwise-distinct cards, card i being `Card(ranks[i % 13], suits[i / 13])` |
| `Cards.AcesAtTwelveModThirteen` | Book.py:38 | `deck[12::13]` reads the ace of spades, diamonds, clubs and hearts, in that order |
| `Cards.EveryThirteenthFrom12` | Book.py:38 | in a 52-card list, `[12::13]` reads positions 12, 25, 38 and 51 |
| `Cards.FrenchDeck.Len` | Expert.py:18-19 | `len(deck)` is the number of cards held, and the positions that index the deck are exactly -len .. len - 1 |
| `Cards.FrenchDeck.GetItem` | Expert.py:21-22 | `deck[position]` succeeds exactly for -len <= position < len; it returns `_cards[position]` for a non-negative position and `_cards[len + position]` for a negative one |
| `Cards.NewFrenchDeck` | Expert.py:13-16 | `len(FrenchDeck())` is 52 |
| `Cards.FrenchDeckGetItem` | Expert.py:10-22 | `FrenchDeck()[i]` succeeds exactly for -52 <= i < 52, and for 0 <= i < 52 it is `Card(ranks[i % 13], suits[i / 13])` |
| `Cards.Deck.constructor` | Book.py:629-631 | a new `Deck` holds the 52 cards of the comprehension, so `len(Deck())` is 52 |
| `Cards.Deck.Len` | Book.py:633-634 | `len(d)` is the number of cards held, and the positions that index the deck are exactly -len .. len - 1 |
| `Cards.Deck.GetItem` | Book.py:636-637 | `d[pos]` succeeds exactly for -len <= pos < len; it returns `_cards[pos]` for a non-negative pos and `_cards[len + pos]` for a negative one, and reads the deck without changing it |
| `Cards.Deck.SetItem` | Book.py:639-640 | `d[pos] = card` replaces exactly the card of slot pos and keeps `len(d)`; an out-of-range pos raises IndexError and leaves the deck alone |
| `Cards.Deck.DelItem` | Book.py:642-643 | `del d[pos]` removes exactly the card of slot pos, keeps the others in order and lowers `len(d)` by one; an out-of-range pos raises IndexError and leaves the deck alone |
| `Cards.Deck.Insert` | Book.py:645-646 | `d.insert(pos, card)` puts the card before slot pos, keeps the others in order and raises `len(d)` by one |
| `Cards.SetItemThenRestore` | Book.py:636-640 | replacing a card and writing the old one back leaves the deck as it was |
| `Cards.InsertThenDelete` | Book.py:642-646 | inserting a card and deleting at the same position leaves the deck as it was |
| `Vectors.Vector.SquaredAbs` | Expert.py:69-70 | the square of `hypot(x, y)` is non-negative and zero exactly for the zero vector |
| `Vectors.Vector.Bool` | Expert.py:72-74 | `bool(v)` is false exactly when both components are 0 |
| `Vectors.Vector.Add` | Expert.py:76-79 | `v + w` is `Vector()`, the only falsy vector, exactly when w is v negated; `AddLaws` and `MulLaws` state its algebra |
| `Vectors.Vector.Mul` | Expert.py:81-83 | `v * 1` is v and `v * 0` is the falsy `Vector()`; `MulLaws` and `MulBool` state the rest |
| `Vectors.FalsyIffZero` | Expert.py:72-74 | the only falsy vector is `Vector()` |
| `Vectors.AddLaws` | Expert.py:76-79 | `+` is commutative and associative, and `Vector()` is neutral |
| `Vectors.MulLaws` | Expert.py:81-83 | `*` distributes over `+`, and scaling twice scales by the product |
| `Vectors.MulBool` | Expert.py:72-83 | `v * s` is truthy exactly when v is truthy and s is not 0 |
| `Vectors.ChapterExample` | Expert.py:86-92 | `Vector(2, 4) + Vector(2, 1) == Vector(4, 5)`, `Vector(2, 4) * 3 == Vector(6, 12)`, and `Vector(2, 4)` is truthy |
| `Letters.CountLetters` | Book.py:221-228 | the dictionary has one key per character of the word, mapped to its number of occurrences, and no other key |
| `Letters.CountsSumToLength` | Expert.py:221-228 | the values of `count_letters(word)` add up to `len(word)`, whatever the order of the keys |
| `Letters.OccurrencesOfWord` | Expert.py:221-228 | listing each character of the word once and adding its occurrences gives the word's length |
| `Letters.ChapterExample` | Book.py:230-231 | `count_letters('AAABBC')` is `{'A': 3, 'B': 2, 'C': 1}` |
| `Averagers.SumAppend` | Book.py:398-399 | the sum grows by the value appended |
| `Averagers.MeanBounds` | Book.py:398-400 | the running average lies between the smallest and the largest value seen |
| `Averagers.SeriesAverager.constructor` | Book.py:390-392 | the first averager starts with an empty series |
| `Averagers.SeriesAverager.Average` | Book.py:394-400 | a call appends the value to the series and returns the series' sum over its length |
| `Averagers.CountingAverager.constructor` | Book.py:418-420 | the second averager starts with count 0 and total 0 |
| `Averagers.CountingAverager.Average` | Book.py:422-429 | a call adds 1 to count and the value to total, and returns total / count |
| `Averagers.SameAverages` | Book.py:390-431 | fed the same values, both averagers return the same averages, each the mean of the values seen so far; afterwards the first averager's series is the values, and the second one's count and total are their number and their sum |
| `Averagers.ChapterExample` | Book.py:404-407 | `avg(10)`, `avg(12)`, `avg(14)` return 10, 11 and 12 |
| `Recursion.Factorial` | Book.py:499-501 | `factorial(n)` is at least 1 and at least n |
| `Recursion.FactorialDivisible` | Book.py:469-470 | every k in 1 .. n divides `factorial(n)` |
| `Recursion.Fibonacci` | Book.py:515-518 | `fibonacci(n)` is non-negative for n >= 0 and positive for n >= 1 |
| `Recursion.FibonacciMonotone` | Book.py:515-518 | from 1 on, `fibonacci` never decreases |
| `Recursion.FibonacciSumIdentity` | Book.py:515-518 | `fibonacci(0) + ... + fibonacci(n - 1) == fibonacci(n + 1) - 1` |
| `Recursion.ChapterExamples` | Book.py:468-520 | `factorial(4) == 24` and `fibonacci(6) == 8` |
| `Tombolas.InsertSorted` | Book.py:727 | inserting into a sorted list keeps it sorted and adds exactly the one item |
| `Tombolas.Sorted` | Book.py:727 | `sorted(items)` is in non-decreasing order and is a permutation of items |
| `Tombolas.SortedIsUnique` | Book.py:716-727 | two sorted permutations of the same items are equal |
| `Tombolas.SortedOfPermutation` | Book.py:727 | `sorted` gives the same tuple for any arrangement of the same items |
| `Tombolas.Tombola.constructor` | Book.py:697-727 | a new list-backed container holds no items |
| `Tombolas.Tombola.Load` | Book.py:699-701 | `load(iterable)` adds all the given items to those held |
| `Tombolas.Tombola.Pick` | Book.py:703-708 | `pick()` raises LookupError exactly when the container is empty, and then changes nothing; otherwise it returns one held item and removes exactly that item |
| `Tombolas.Tombola.Inspect` | Book.py:716-727 | `inspect()` returns the held items in non-decreasing order, as a permutation, and the container afterwards holds the same multiset of items |
| `Tombolas.Tombola.Loaded` | Book.py:710-714 | `loaded()` is true exactly when at least one item is held, and it leaves the same multiset of items |
| `Tombolas.InspectTwice` | Book.py:710-727 | two `inspect()` calls in a row return the same tuple, the sorted items held, and `loaded()` afterwards still answers the same |
| `Tombolas.LoadThenDrain` | Book.py:697-708 | after `load(xs)`, `len(xs)` picks return exactly the items of xs, and the container is then empty |
| `Tombolas.LoadInspectExample` | Book.py:697-727 | an example of the modelled behaviour, not a call the source makes: a new container raises LookupError on `pick`; after `load([3, 1, 2])`, `inspect()` is `(1, 2, 3)` and `loaded()` is true |
| `Iterators.ReverseGen` | Book.py:771-773 | the generator `reverse(data)` yields as many values as data holds |
| `Iterators.ReverseGenAt` | Book.py:771-773 | the k-th value the generator yields is `data[len(data) - 1 - k]` |
| `Iterators.ReverseGenTwice` | Book.py:771-773 | reversing twice gives the data back |
| `Iterators.Reverse.constructor` | Book.py:747-749 | a new iterator keeps data and starts with `index == len(data)`, with the whole reversed data still to come |
| `Iterators.Reverse.Iter` | Book.py:751-752 | `__iter__` returns the iterator itself |
| `Iterators.Reverse.Next` | Book.py:754-758 | `__next__` raises StopIteration once index is 0 and leaves it 0; otherwise it lowers index by one, returns `data[index]`, and that value is the next one the generator yields; index never goes below 0 |
| `Iterators.CollectReverse` | Book.py:745-773 | calling `__next__` until StopIteration collects exactly what the generator `reverse(data)` yields |
| `Iterators.SpamExample` | Book.py:760-766 | the first `next(Reverse('spam'))` is 'm' and leaves `index == 3` |

## Left out

- Printing, the tutorial statements at module level, and everything else between the modelled fragments. None of it computes anything the fragments use.
- The pandas and numpy reports (`mcc_by_avt`, `payway_report`, `cat_report`, `id_report`). They are library calls over randomly generated data frames.
- The `clock` decorators and high_performance_python.py. They measure wall-clock time and print it.
- Python's recursion limit. `factorial` and `fibonacci` raise `RecursionError` once the call depth passes it, and under `@clock` each level takes two frames. `Recursion.Factorial` and `Recursion.Fibonacci` are defined for every integer.
- The `lru_cache` memoisation. It changes only speed, so `Fibonacci` is modelled without it.
- `Vector2d`. It uses float fields, byte serialisation and a malformed `__repr__` format.
- `Vector.__repr__`. It only formats the vector as text.
- `Vector.__abs__`. It returns a float from `hypot`, so only its zero test is modelled, through `SquaredAbs`.
- Vector components and scalars are integers. Python would also accept floats, and `hypot` of huge integers overflows, which is not modelled.
- Float rounding. The averagers compute on exact reals, whereas Python's `/` gives a rounded float.
- `choice(deck)`, and the uniform random choice `pick` is documented to make. Neither can be stated without probabilities.
- `Tombolas.Tombola.Pick`: states that some held item is removed and returned, not that each is equally likely.
- The abstract-method dispatch of `Tombola`. Traits are not used here, so one concrete list-backed class stands for the subclasses.
- Items are integers. An `inspect` over items that cannot be ordered, where `sorted` raises `TypeError`, is not modelled.
- The dictionary's key order. `count_letters` is modelled as a map, and the sum lemma holds for every order of the keys.
- `Cards.FrenchDeck.GetItem`: covers integer positions only; slice arguments are modelled only for `[start::step]` with a positive step.
- `Cards.Deck.GetItem`: covers integer positions only; slice positions for reading, assignment and deletion are not modelled.
- The methods `Deck` inherits from `MutableSequence`, such as `append`, `pop`, `remove`, `reverse` and `__contains__`. They are library code.
- `Deck.__setitem__` and `Deck.insert` accept any value. `Cards.Deck.SetItem` and `Cards.Deck.Insert` accept only a `Card`.
- Aliasing of the list `Reverse` iterates. The iterator keeps a reference to `data`, so a later change to that list is seen by `__next__`, and a shortened list can make it raise IndexError. `Iterators.Reverse` holds `data` as an immutable sequence.
- `reversed(deck)` and iteration over decks through `__getitem__`. These are interpreter protocols, not repository code.
- The second `count_letters` (it references `collections.defaultddict`) and `StrKeyddict` (its base is `collections.Userddict`). Both name attributes that do not exist, so they fail when run.
- `pirate`, which delegates to `range`. Also the standard-library demonstrations: `bisect`, `deque`, `sorted` with a key, `dis`, `namedtuple` cities, `MappingProxyType`, set operators and the scoping demo.
