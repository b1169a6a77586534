# Small Swift and Python programs, modelled in Dafny

This project models five small programs from a collection of Swift and Python
exercises, and proves what each of them promises.

- **Making change for a dollar.**
  - A satchel `S` holds counts of pennies, nickels, dimes and quarters. It has a
    field subscript, equality by description string, and a hash.
  - `change(s, c1, c2)` trades some of coin `c1` for one coin `c2`. Dime to
    quarter is special: two dimes and a nickel become a quarter.
  - A breadth-first driver starts from a dollar in pennies and collects every
    reachable satchel, keeping `results` and `temp` free of duplicates.
  - The Swift version (modules `Coins`, `ChangeSearch`) and the Python version
    over dicts `{1: p, 5: n, 10: d, 25: q}` (module `ChangeDict`) are both
    modelled. The dict moves are proved to be the satchel moves.
  - Both drivers are proved to collect exactly the non-negative satchels worth
    the amount, each once: 242 of them for a dollar.
- **A lexer** (module `Lexing`). It turns a string of digits, `+` and spaces into
  `Number` and `Plus` tokens and reports the first character it cannot lex. The
  class `Lexer` with `peek`, `advance`, `getNumber` and `lex` is proved against a
  functional definition `Tokens`. Lexing the rendering of a token list gives the
  list back.
- **Playing cards** (module `Cards`). A card's key is `n = 13·suit + rank`.
  Cards are ordered by that key, and `==` compares rank and suit.
- **Card arrays, decks and hands** (module `CardArrays`):
  - the elided description, shown in full up to 13 cards, otherwise the first
    six, `" ... "` and the last six;
  - sorting in non-increasing order;
  - range slicing;
  - building a full 52-card deck;
  - dealing it round-robin into four sorted hands.
- **Towers of Hanoi** (module `Hanoi`).
  - The pegs `L`, `M`, `R` are a dict of lists, changed in place by `move`.
  - `move` checks that a move is legal.
  - `solve` moves a tower recursively.
  - Proved: every peg stays strictly decreasing, the discs are neither lost nor
    duplicated, `solve(n, dst)` calls `move` exactly `2^n - 1` times, and five
    discs end up on `R`.

Helper modules: `Wrappers` (`Option`, `Result`), `Decimal` (decimal numerals of
integers, as string interpolation writes them), and `Frontier` (the duplicate-free
appends the change drivers make), and `ChangeCount` (the number of ways to make an
amount, counted by an explicit enumeration, which the searches' results are
proved to match).

## Model

| member | source | states |
|---|---|---|
| Coins.Satchel.With | code/change/coin.swift:35-42 | setting `s[c]` gives `c` the new count and leaves the other three coins unchanged |
| Coins.EqualIffSameCounts | code/change/coin.swift:9-22 | two satchels are `==` (their descriptions `"{p}p {n}n {d}d {q}q"` are equal) exactly when all four counts agree |
| Coins.EqualSatchelsHashAlike | code/change/coin.swift:23-25 | satchels that are `==` have the same `hashValue` |
| Coins.HashCollision | code/change/coin.swift:23-25 | `S(100,0,0,0)` and `S(0,1,0,0)` share a hash but are not `==` |
| Coins.Change | code/change/coin.swift:46-74 | `change` computes the move `Changed`: the dime-to-quarter branch, or the copy of the other two coins through the loop over the set `others`, then `c1` and `c2` written |
| Coins.DimeToQuarter | code/change/coin.swift:50-58 | dime to quarter fails exactly when `n < 1` or `d < 2`, and otherwise gives `(p, n-1, d-2, q+1)` |
| Coins.DirectExchange | code/change/coin.swift:60-70 | any other pair fails exactly when `s[c1]*c1 < c2`; otherwise `c1` drops by `c2/c1`, `c2` rises by one, and the other coins are copied |
| Coins.ForwardChangePreserves | code/change/coin.swift:46-74 | a move from a smaller to a larger coin keeps the value `p+5n+10d+25q` and keeps every count non-negative |
| Coins.ChangeRoundTrip | code/change/coin.swift:46-74 | a successful move can be undone: `Unchange` recovers the satchel it came from |
| Coins.DollarInPenniesMoves | code/change/test.coin.swift:4-19 | from 100 pennies, a forward move succeeds exactly when it starts from pennies |
| Coins.MixedSatchelMoves | code/change/test.coin.swift:21-31 | from `50p 5n 2d 1q` every forward move succeeds, as the forced unwrap `!` requires |
| Decimal.DigitsValueOfNatToString | code/change/coin.swift:20 | the decimal numeral of `n` reads back as `n` |
| Decimal.NatToStringInjective | code/change/coin.swift:20 | different naturals have different numerals |
| Decimal.IntToStringInjective | code/change/coin.swift:20 | different integers, negative ones included, have different numerals |
| Frontier.AbsorbMembers | code/change/change.swift:22-29 | after the candidates are appended to `temp` unless already in `results` or `temp`, `temp` holds exactly the old entries and the new ones not seen, and stays free of duplicates |
| ChangeSearch.Contains | code/change/change.swift:25-26 | `contains`, which compares with `==`, is membership |
| ChangeSearch.PairOrder | code/change/change.swift:17-21 | the loops over `coins` try exactly the six forward pairs, in a fixed order |
| ChangeSearch.CandidateLevels | code/change/change.swift:15-33 | every move from a valid satchel gives a valid satchel, at a different level but at most one level deeper (level = `n+d+q`) |
| ChangeSearch.LevelsHaveNoGaps | code/change/change.swift:13-36 | when some valid satchel is at level `k`, every level below `k` is reached too |
| ChangeSearch.PennyPredGenerates | code/change/change.swift:15-33 | every valid satchel above level 0 is produced by a move from a valid satchel one level up the search |
| ChangeSearch.VisitKeepsRound | code/change/change.swift:15-33 | visiting one satchel of the current round keeps the round's invariant on `results` and `temp` |
| ChangeSearch.RoundComplete | code/change/change.swift:34-35 | after a round, `temp` is the next round and `results` holds exactly the valid satchels of the levels done |
| ChangeSearch.Enumerator.Visit | code/change/change.swift:15-33 | one pass of the `for s in L` body: `s` is appended to `results`, and the new results of its moves are appended to `temp` |
| ChangeSearch.Enumerator.Test | code/change/change.swift:13-36 | from `[S(N,0,0,0)]`, `test` leaves `L` and `temp` empty and `results` holding every non-negative satchel worth `N`, each exactly once |
| ChangeSearch.CountWays | code/change/change.swift:44-48 | the script's run: the ways to make `amount`, each exactly once, and as many as `ChangeCount.Ways(amount)` |
| ChangeSearch.DollarCount | code/change/change.swift:38 | `results.count` for a dollar is 242 |
| ChangeCount.SpaceMembers | code/change/change.swift:44-48 | an independent enumeration, by quarters, then dimes, then nickels, lists each non-negative satchel worth `r` exactly once |
| ChangeCount.WaysCounted | code/change/change.swift:38 | any duplicate-free list of exactly the satchels worth `N` has `Ways(N)` entries |
| ChangeCount.DollarWays | code/change/change.swift:44 | there are 242 ways to change a dollar |
| ChangeSearch.OneCentOneWay | code/change/change.swift:44-46 | one cent can be made in exactly one way |
| ChangeDict.Seed | code/change/change.py:3-6 | the start dict has the four coin keys |
| ChangeDict.FromSatchel | code/change/change.py:5 | a satchel's dict has the four coin keys and reads back as the satchel |
| ChangeDict.FromToSatchel | code/change/change.py:5 | a four-key dict is recovered from its satchel |
| ChangeDict.ChangeD | code/change/change.py:11-28 | `change(D, c1, c2)` copies every key of `D`, then makes the special or the plain trade |
| ChangeDict.SameMoveAsSatchel | code/change/change.py:11-28 | the dict move fails exactly when the satchel move fails, and otherwise gives the dict of the satchel move |
| ChangeDict.SameDimeToQuarter | code/change/change.py:16-22 | `10 -> 25` fails exactly when `D[10] < 2` or `D[5] < 1`, as in the Swift version |
| ChangeDict.SameDirectMove | code/change/change.py:23-27 | every other pair fails exactly when `c1*D[c1] < c2`, as in the Swift version |
| ChangeDict.SameCoinPair | code/change/change.py:24-27 | a coin traded for itself gives back the same dict when there is one of it, and fails otherwise |
| ChangeDict.Candidates | code/change/change.py:42-45 | the loop `for i ... for j in range(i, 4)` tries nine pairs |
| ChangeDict.PairOrder | code/change/change.py:42-43 | the pairs are visited in a fixed order: `(coins[i], coins[j])` for `i <= j` |
| ChangeDict.CandidateAt | code/change/change.py:45-47 | each pair tried is the one at its place in `Candidates`, and a dict it yields is never empty, so the truth test `if rD` passes |
| ChangeDict.CandidateWellFormed | code/change/change.py:11-28 | a move keeps the four coin keys |
| ChangeDict.CandidateLevels | code/change/change.py:39-49 | every move from a valid dict gives a valid dict: the same dict, or one at a different level at most one deeper |
| ChangeDict.PennyPredGenerates | code/change/change.py:39-49 | every valid dict above level 0 is produced by a move from a valid dict one level up |
| ChangeDict.RoundComplete | code/change/change.py:50-51 | after a round, `temp` is the next round and `results` holds exactly the valid dicts of the levels done |
| ChangeDict.Search.Visit | code/change/change.py:39-49 | one pass of `for D in L`: `D` is appended to `results`, and the new results of its moves are appended to `temp` |
| ChangeDict.Search.Run | code/change/change.py:38-51 | `while L:` ends with `L` and `temp` empty and `results` holding every four-key dict of non-negative counts worth `N`, each exactly once |
| ChangeDict.CountWays | code/change/change.py:3-51 | the script's run: the ways to make `amount` as dicts, each exactly once, and as many as `ChangeCount.Ways(amount)` |
| ChangeDict.DictsCounted | code/change/change.py:53 | `len(results)`: a duplicate-free list of exactly the valid dicts worth `N` has `Ways(N)` entries |
| Lexing.DigitRun | chapter5/lexer.swift:33-41 | `getNumber` stops at the first non-digit: the digit run is all digits and is followed by a non-digit or the end |
| Lexing.DigitRunUnique | chapter5/lexer.swift:33-41 | there is only one such run length |
| Lexing.TokensError | chapter5/lexer.swift:45-62 | `lex` succeeds exactly when every character is a digit, `+` or a space; otherwise it throws `InvalidCharacter` with the first illegal character |
| Lexing.TokensFewerThanChars | chapter5/lexer.swift:45-62 | a successful lex gives at most one token per character |
| Lexing.SampleInput | chapter5/lexer.swift:65-69 | `"1 2 +"` lexes to `[Number(1), Number(2), Plus]` |
| Lexing.LexRender | chapter5/lexer.swift:45-62 | lexing tokens written out with single spaces gives the tokens back |
| Lexing.Lexer.constructor | chapter5/lexer.swift:14-17 | the lexer starts at the first character of its input |
| Lexing.Lexer.Peek | chapter5/lexer.swift:19-23 | `peek` is `nil` exactly at the end, and otherwise the character under the cursor |
| Lexing.Lexer.Advance | chapter5/lexer.swift:25-29 | `advance` moves the cursor one character on |
| Lexing.Lexer.GetNumber | chapter5/lexer.swift:31-43 | `getNumber` consumes the digit run under the cursor and returns its decimal value |
| Lexing.Lexer.Lex | chapter5/lexer.swift:45-62 | `lex` returns `Tokens` of the rest of the input and keeps the cursor valid; on success the cursor is at the end, and on `InvalidCharacter(c)` it rests on `c` |
| Cards.Card.N | code/card/card.swift:69-74 | the key `13·suit + rank` lies between 15 and 66 |
| Cards.RankValuesDistinct | code/card/card.swift:21-28 | ranks have distinct raw values from 2 to 14 |
| Cards.KeyIdentifiesCard | code/card/card.swift:44-78 | equal keys, `==` (same rank and suit), equal hashes and equal cards coincide |
| Cards.LessIsSuitMajor | code/card/card.swift:51-54 | `<` orders by suit first, then by rank |
| Cards.Trichotomy | code/card/card.swift:51-60 | exactly one of `<`, `==`, `>` holds, and `a > b` exactly when `b < a` |
| Cards.RankDescriptions | code/card/card.swift:30-41 | each rank is written as one character, and different ranks differently |
| Cards.DescriptionIdentifiesCard | code/card/card.swift:80-82 | different cards have different descriptions |
| Cards.AllValuesAscending | code/card/card.swift:4-28 | `allValues` lists every suit and every rank once, in ascending raw value |
| Cards.ComparisonExamples | code/deck/main.swift:9-16 | the comparisons of the first deck test all hold |
| CardArrays.Insert | code/deck/CardArray.swift:44-46 | inserting into a non-increasing sequence keeps it non-increasing and adds exactly the card |
| CardArrays.SortedIsUnique | code/deck/CardArray.swift:44-46 | a non-increasing arrangement of given cards is unique, so the sorted order is determined |
| CardArrays.WindowShape | code/deck/CardArray.swift:22-39 | up to 13 cards are all shown; more show the first six, `" ... "` and the last six |
| CardArrays.DealtCards | code/deck/CardArray.swift:98-102 | hand `k` gets the cards at positions `4m + k` |
| CardArrays.DealtPartition | code/deck/CardArray.swift:98-102 | the four hands together hold exactly the dealt cards |
| CardArrays.FullDeckContents | code/deck/CardArray.swift:77-85 | the deck holds every card once, in ascending key order `15..66` |
| CardArrays.DealingFullDeck | code/deck/CardArray.swift:97-112 | dealing a fresh deck gives four hands of 13, hand `k` holding the keys `15 + 4m + k`, and all 52 cards between them |
| CardArrays.CardArray.constructor | code/deck/CardArray.swift:7-9 | a card array holds the given cards |
| CardArrays.CardArray.Hand | code/deck/CardArray.swift:117-119 | a hand holds the given cards |
| CardArrays.CardArray.Deck | code/deck/CardArray.swift:77-85 | a deck holds the 52 cards, suit by suit and rank by rank |
| CardArrays.CollectionView | code/deck/CardArray.swift:11-56 | `startIndex` is 0, `endIndex` and `count` are the number of cards, and the index subscript reads the cards |
| CardArrays.CardArray.BaseDescription | code/deck/CardArray.swift:17-42 | the description is the shown window of card descriptions joined with spaces |
| CardArrays.CardArray.Description | code/deck/CardArray.swift:87-91 | a deck prefixes `"Deck: "` and a hand `"Hand: "` to the base description |
| CardArrays.CardArray.SortInPlace | code/deck/CardArray.swift:44-46 | after sorting, the cards are in non-increasing key order and are the same cards |
| CardArrays.CardArray.Slice | code/deck/CardArray.swift:58-72 | the range subscript gives a new array of the cards from `start` up to `end` |
| CardArrays.CardArray.Deal | code/deck/CardArray.swift:97-112 | four new hands, hand `k` holding the cards at `k, k+4, ...` below 52, sorted |
| Hanoi.Tower | code/hanoi/hanoi.py:42-45 | the start tower `[n, ..., 1]` has `n` discs |
| Hanoi.TowerShape | code/hanoi/hanoi.py:42-45 | the start tower is strictly decreasing and its disc at place `i` is `n - i` |
| Hanoi.FindCache | code/hanoi/hanoi.py:16-19 | `find_cache` fails (the key is missing) exactly when `src == dst`, and otherwise gives the peg that is neither |
| Hanoi.Third | code/hanoi/hanoi.py:16-19 | the third peg differs from both pegs given |
| Hanoi.Towers.constructor | code/hanoi/hanoi.py:42-49 | the pegs start as `L = [n, ..., 1]`, `M = []`, `R = []`, stacked legally |
| Hanoi.Towers.FindValue | code/hanoi/hanoi.py:11-14 | `find_value` returns a peg holding the disc, and `None` exactly when no peg holds it |
| Hanoi.Towers.Validate | code/hanoi/hanoi.py:7-9 | `validate` passes exactly when every disc on `dst` is larger than `v` |
| Hanoi.Towers.Move | code/hanoi/hanoi.py:21-26 | `move` takes the disc off the top of its peg and puts it on `dst`, leaves the third peg alone, keeps every peg strictly decreasing, and counts one move |
| Hanoi.MoveOutcome | code/hanoi/hanoi.py:21-26 | under the asserts, `find_value` finds the disc on its peg alone, and the pop and the append keep every peg strictly decreasing |
| Hanoi.MoveKeepsDiscs | code/hanoi/hanoi.py:21-26 | a move keeps the multiset of all discs |
| Hanoi.Towers.SpareFor | code/hanoi/hanoi.py:33-34 | the peg found holding `value` is the source, so `cache` is the third peg |
| Hanoi.Towers.Solve | code/hanoi/hanoi.py:28-40 | `solve(value, dst)` moves the tower `value..1` from the top of its peg onto `dst`, touches nothing under it or on the spare peg, keeps every peg strictly decreasing, and calls `move` `2^value - 1` times |
| Hanoi.CarryKeepsDiscs | code/hanoi/hanoi.py:28-40 | carrying a tower keeps the multiset of all discs |
| Hanoi.FoundOnSource | code/hanoi/hanoi.py:33 | the largest disc of the tower is on the source peg and on no other |
| Hanoi.FirstHalfReady | code/hanoi/hanoi.py:37 | the first recursive call may move the tower of `value - 1` onto the spare peg |
| Hanoi.MiddleMoveReady | code/hanoi/hanoi.py:38 | then disc `value` is on top of the source, on no other peg, and smaller than every disc on `dst`, so `move`'s asserts hold |
| Hanoi.SecondHalfReady | code/hanoi/hanoi.py:39 | then the second recursive call may move the tower of `value - 1` from the spare peg onto `dst` |
| Hanoi.SolveComplete | code/hanoi/hanoi.py:36-39 | the two recursive calls and the move between them carry the whole tower of `value` |
| Hanoi.Run | code/hanoi/hanoi.py:42-49 | the script ends with `L = []`, `M = []`, `R = [5, 4, 3, 2, 1]` after 31 moves |

## Left out

- Printing is not modelled: `print` of the results, `pprint`, the lexer driver's output, and the Hanoi trace lines. The runs are modelled as methods that return the final state.
- The Swift script's closing report is left out: it sorts and prints the descriptions of `L` (code/change/change.swift:50-57). `ChangeSearch.Enumerator.Test` ensures `L == []` when `test` returns, so that report lists nothing. The count `results.count` is modelled (`ChangeSearch.DollarCount`).
- Python's `results.sort(reverse=True)` on dicts is left out: Python 2 leaves that order to the implementation.
- `Deck.shuffleInPlace` and `code/deck/intstuff.swift` are left out: they use `random()` and floating-point scaling. intstuff.swift is not part of this model.
- `hashValue` quality is not modelled beyond `Coins.HashCollision`, and the search never relies on hashing.
- Lexing.Lexer.GetNumber: the value is an unbounded natural. Swift's `Int` would trap on overflow for very long digit runs.
- Strings are sequences of Unicode code points: the suit glyphs are single characters, with no grapheme clustering or normalisation as Swift's `Character` has.
- Hanoi.Towers.Move: the move log is a counter `moves`. The printed `move %s dst %s` lines are not kept.
- Hanoi.FindCache: the key is a pair of letters, not the two-character string `''.join(sorted([src, dst]))`. Sorting and looking up are the same.
- Hanoi.Towers.Solve: the source peg is a ghost parameter that names where the tower lies. The code finds it with `find_value`.
- The source's `assert`s and traps are modelled as follows, and each is proved to hold at every call in the programs:
  - `advance`'s assert becomes a `requires` of `Lexing.Lexer.Advance`.
  - `validate`'s asserts: `Hanoi.Towers.Validate` returns whether they would all pass. `Hanoi.Towers.Move` asserts that result, and its `requires CanMove` is what makes it true.
  - `move`'s `assert value == D[src].pop()` is part of `requires CanMove` on `Hanoi.Towers.Move`: `value` is on top of its peg.
  - Swift's out-of-range trap on the index subscript becomes `requires i < |a|` on `CardArrays.CardArray.At`.
  - The range subscript's trap, on a range outside the cards, becomes `requires start <= end <= |a|` on `CardArrays.CardArray.Slice`.
  - Deck.deal's indexing of positions `0..<52` becomes `requires |a| >= 52` on `CardArrays.CardArray.Deal`.
- Hanoi.Towers.Move: the pop happens inside an `assert` (code/hanoi/hanoi.py:25). Under `python -O` assertions are skipped, so the disc would not be popped and would be duplicated. The model follows a run with assertions enabled.
- Hanoi.Towers.Move: `move`'s default argument `dst='R'` is not modelled; `dst` is always passed. `solve` always passes it.
- The Python search is modelled over dicts in its own module rather than as a copy of the satchel search. Its pair loops try nine pairs, including each coin against itself, and a move can give back the dict it started from. So its round lemmas differ in those places. Its moves are proved equal to the satchel moves (`ChangeDict.SameMoveAsSatchel`).
- Python's `c1 is 10 and c2 is 25` is modelled as integer equality. This is what it does for small integers in CPython.
- The order in which the Swift `for c in others` and the Python `for k in D` visit keys is left open: each loop is proved for any order.
- Swift protocol conformances (`CollectionType`, `Hashable`, `Comparable`) are modelled only through the members listed above.
