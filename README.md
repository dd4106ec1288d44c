# Day 1 of Advent of Code 2023: calibration values

This project models the two solvers for day 1 of the `advent_of_code` Python package and proves properties of them.

A calibration document is a text of lines. Each line carries a two-digit calibration value. Its tens digit is the first digit that occurs in the line and its units digit is the last. The document's total is the sum of its lines' values.

- **Part one** (`Day01Part1`, `day01_part1.dfy`) counts only the characters `'0'..'9'` as digits. Its line scan is a method with the source's two loops: forward from the start, then backward from the end. The method is proved equal to a first-index / last-index specification.
- **Part two** (`Day01Part2`, `day01_part2.dfy`) also counts the spelled-out words `one` … `nine` and `zero` of the `DIGITS` table.
  - `ExtractLeadingNumber` is the source's lookup at one offset. It returns the text's first character when that is a digit. Otherwise it returns the value of the first table word, in table order, that begins the text.
  - The forward loop applies that lookup to every suffix of the line.
  - The backward loop applies it to every reversed prefix of the line, against `REVERSED_DIGITS` (the table with every word spelled backwards). The model proves that this reads exactly the digit or word that *ends* at that position.
  - Overlapping words (`eightwo`, `twone`) are therefore both seen: the text matched at one offset is not consumed.
  - The scan is stated for any table of non-empty words with digit values. `DIGITS` and `REVERSED_DIGITS` are proved to satisfy what the scan and its lemmas need.
- `Chars` holds the shared notions of digits and reversal. `Document` holds line splitting and summing.
- `Day01Part2Examples` (`day01_part2_examples.dfy`) proves every doctest vector of part two. Each example line is first valued over any table with the properties it needs, and then `DIGITS` is plugged in.

A line with nothing to read has no value. In the source such a line fails with an unbound local variable or a `TypeError`. The model returns `None`, and the total of a document is `None` as soon as one of its lines has no value.

Two facts about the code:

- **Table order.** `DIGITS` is declared `one, …, nine, zero`, and Python dictionaries iterate in declaration order, so `DIGITS` keeps that order. `Day01Part2.LeadingNumberIgnoresOrder` proves the order cannot change a result, because no word of the table begins another.
- **Value range.** A line whose digits are all `0`, such as `a0b`, gives `int("00") == 0`. The proved bound is therefore [0, 99].

## Model

| member | source | states |
|---|---|---|
| Chars.IsDigit | src/advent_of_code/day_01/part1.py:17 | only the ASCII characters `'0'..'9'` count as digits, the restriction of `str.isdigit` this model makes (also part2.py:32) |
| Chars.DigitValue | src/advent_of_code/day_01/part1.py:26 | a digit character's value is at most 9 and is the position of the character in `0123456789`, which is what `int` reads |
| Chars.TwoDigitNumber | src/advent_of_code/day_01/part1.py:26 | the number read from two digit characters placed side by side is at most 99 |
| Chars.Reverse | src/advent_of_code/day_01/part2.py:16 | the reversed text has the same length, and its i-th character is the i-th character from the end of the original |
| Chars.SuffixReversed | src/advent_of_code/day_01/part2.py:73-77 | a word that ends a text, reversed, begins the reversed text |
| Chars.ReversedPrefixIsSuffix | src/advent_of_code/day_01/part2.py:73-77 | a reversed word that begins the reversed text is, unreversed, a word that ends the text |
| Chars.ReversedPrefixIffSuffix | src/advent_of_code/day_01/part2.py:73-77 | a reversed word begins a reversed text exactly when the word ends the text |
| Document.Lines | src/advent_of_code/day_01/part1.py:39 | splitting a document yields lines without a newline, and no more lines than characters |
| Document.LinesOfUnlines | src/advent_of_code/day_01/part1.py:39 | splitting the text made by ending each of some newline-free lines with a newline gives back exactly those lines |
| Document.UnlinesOfLines | src/advent_of_code/day_01/part1.py:39 | joining the split lines, each ended by a newline, rebuilds the document with a final newline added when it had none |
| Document.LinesUnique | src/advent_of_code/day_01/part1.py:39 | a list of newline-free lines is the split of a document if and only if joining them rebuilds that document, final newline added |
| Document.Sum | src/advent_of_code/day_01/part1.py:39 | a sum of line values exists exactly when every line has a value |
| Document.SumAppend | src/advent_of_code/day_01/part1.py:39 | the sum over two lists put together is the sum of their sums, and is missing when either is |
| Document.SumOfValues | src/advent_of_code/day_01/part1.py:39 | when every value is present, the sum is the arithmetic sum of the values |
| Document.SumBound | src/advent_of_code/day_01/part1.py:39 | when every value is present and at most a bound, the sum is present and at most the bound times the number of values |
| Day01Part1.FirstDigitIndex | src/advent_of_code/day_01/part1.py:16-19 | the index found holds a digit and no earlier index does; no index is found exactly when the line holds no digit |
| Day01Part1.LastDigitIndex | src/advent_of_code/day_01/part1.py:21-24 | the index found holds a digit and no later index does; no index is found exactly when the line holds no digit |
| Day01Part1.CalibrationValue | src/advent_of_code/day_01/part1.py:16-26 | a line has no value exactly when it holds no digit; otherwise the value is at most 99 and is ten times the digit at the smallest digit index plus the digit at the largest |
| Day01Part1.GetCalibrationValue | src/advent_of_code/day_01/part1.py:4-26 | the forward loop, the backward loop and the final combination compute exactly that value, or none when the line holds no digit |
| Day01Part1.DigitIndicesUnique | src/advent_of_code/day_01/part1.py:16-24 | each loop can stop at only one index: the first and the last digit index are each unique |
| Day01Part1.SingleDigitTwice | src/advent_of_code/day_01/part1.py:12-13 | a line with exactly one digit uses it as both tens and units digit |
| Day01Part1.ExampleOneAbcTwo | src/advent_of_code/day_01/part1.py:6-7 | `1abc2` is valued 12 |
| Day01Part1.ExamplePqr | src/advent_of_code/day_01/part1.py:8-9 | `pqr3stu8vwx` is valued 38 |
| Day01Part1.ExampleAlternating | src/advent_of_code/day_01/part1.py:10-11 | `a1b2c3d4e5f` is valued 15 |
| Day01Part1.ExampleTrebuchet | src/advent_of_code/day_01/part1.py:12-13 | `treb7uchet` is valued 77 |
| Day01Part1.LineValues | src/advent_of_code/day_01/part1.py:39 | one value per line, each the calibration value of that line |
| Day01Part1.TotalCalibrationValue | src/advent_of_code/day_01/part1.py:29-39 | a document has a total exactly when every one of its lines holds a digit |
| Day01Part1.TotalBound | src/advent_of_code/day_01/part1.py:39 | a total is at most 99 times the number of lines |
| Day01Part1.LineValuesAppend | src/advent_of_code/day_01/part1.py:39 | the values of two lists of lines put together are the values of the first followed by those of the second |
| Day01Part1.TotalOfConcatenation | src/advent_of_code/day_01/part1.py:39 | the total of two documents joined line after line is the sum of their totals |
| Day01Part1.TotalFromLines | src/advent_of_code/day_01/part1.py:39 | the total of a document is the sum of the values of any lines that rebuild it |
| Day01Part1.ExampleDocumentLines | src/advent_of_code/day_01/part1.py:32-35 | the four lines of the example document rebuild it |
| Day01Part1.ExampleSum | src/advent_of_code/day_01/part1.py:36-37 | the four example values 12, 38, 15 and 77 sum to 142 |
| Day01Part1.ExampleDocument | src/advent_of_code/day_01/part1.py:32-37 | the four-line example document totals 142 |
| Day01Part2.DIGITS | src/advent_of_code/day_01/part2.py:4-15 | the ten digit words with their digits, in declaration order `one` … `nine`, `zero`; what is proved of it is in `DigitsWellFormed` |
| Day01Part2.REVERSED_DIGITS | src/advent_of_code/day_01/part2.py:16 | `DIGITS` with every word reversed, built by `ReverseKeys`; what is proved of it is in `ReversedDigitsWellFormed` |
| Day01Part2.ReverseKeys | src/advent_of_code/day_01/part2.py:16 | the reversed table has one entry per entry of the table, at the same place, with the word reversed and the same digit |
| Day01Part2.DigitRanked | src/advent_of_code/day_01/part2.py:4-15 | each word of DIGITS is singled out by its first two and its last three letters, and maps to a digit |
| Day01Part2.DigitsRanked | src/advent_of_code/day_01/part2.py:4-15 | every entry of DIGITS is singled out that way, and every value is a digit |
| Day01Part2.PrefixSharesHead | src/advent_of_code/day_01/part2.py:35-37 | a word that begins another shares its first two letters |
| Day01Part2.SuffixSharesTail | src/advent_of_code/day_01/part2.py:73-77 | a word that ends another shares its last three letters |
| Day01Part2.RankedTableIsFree | src/advent_of_code/day_01/part2.py:4-15 | a table whose entries are singled out by their first and last letters has no word beginning or ending another |
| Day01Part2.DigitsWellFormed | src/advent_of_code/day_01/part2.py:4-15 | no word of DIGITS begins or ends another, every word has at least three letters, and every value is a digit |
| Day01Part2.DigitValues | src/advent_of_code/day_01/part2.py:4-16 | both tables map words to digit characters |
| Day01Part2.ReverseKeysPrefixFree | src/advent_of_code/day_01/part2.py:16 | reversing the words of a table in which no word ends another gives a table in which no word begins another |
| Day01Part2.ReversedDigitsWellFormed | src/advent_of_code/day_01/part2.py:16 | REVERSED_DIGITS holds exactly the words of DIGITS reversed, in the same order with the same digits, and no reversed word begins another |
| Day01Part2.FirstPrefixKey | src/advent_of_code/day_01/part2.py:35-37 | the entry found is the first, in table order, whose word begins the text; none is found exactly when no word begins it |
| Day01Part2.ExtractLeadingNumber | src/advent_of_code/day_01/part2.py:19-37 | a leading digit is returned whatever the table; otherwise the value of the first table word that begins the text, and nothing exactly when no word does; the result is a digit when the table's values are |
| Day01Part2.LeadingNumberOfPrefixFree | src/advent_of_code/day_01/part2.py:32-37 | with no word beginning another, the lookup returns a digit v if and only if the text starts with v, or, when it starts with no digit, some word with value v begins it |
| Day01Part2.PrefixesNest | src/advent_of_code/day_01/part2.py:35-37 | two words that both begin a text are nested, one beginning the other |
| Day01Part2.LeadingNumberIgnoresOrder | src/advent_of_code/day_01/part2.py:4-16 | two tables with the same entries in any order, neither with a word beginning another, give the same lookup result on every text |
| Day01Part2.FoundInPermutation | src/advent_of_code/day_01/part2.py:35-37 | a result found with one ordering of such a table is found with any other ordering |
| Day01Part2.FirstSuffixKey | src/advent_of_code/day_01/part2.py:73-77 | the entry found is the first, in table order, whose word ends the text; none is found exactly when no word ends it |
| Day01Part2.ExtractTrailingNumber | src/advent_of_code/day_01/part2.py:73-77 | a trailing digit is returned whatever the table; otherwise the value of the first word, in table order, that ends the text, and nothing exactly when no word does |
| Day01Part2.FirstKeyOfReversed | src/advent_of_code/day_01/part2.py:75 | the first reversed word that begins the reversed text is the first word that ends the text |
| Day01Part2.LeadingOfReversedIsTrailing | src/advent_of_code/day_01/part2.py:75 | looking up the reversed text in the reversed table reads the digit or word that ends the text |
| Day01Part2.TrailingNumberOfSuffixFree | src/advent_of_code/day_01/part2.py:73-77 | with no word ending another, any word that ends a text without a trailing digit gives the value read |
| Day01Part2.SuffixesNest | src/advent_of_code/day_01/part2.py:73-77 | two words that both end a text are nested, one ending the other |
| Day01Part2.StartMatch | src/advent_of_code/day_01/part2.py:69 | the digit read at an offset is a digit character when the table's values are |
| Day01Part2.EndMatch | src/advent_of_code/day_01/part2.py:75 | the digit ending at a position is a digit character when the table's values are |
| Day01Part2.BackwardScanReadsEndMatch | src/advent_of_code/day_01/part2.py:74-75 | the lookup of the reversed prefix ending at a position, in the reversed table, is the digit or word that ends at that position |
| Day01Part2.Starts | src/advent_of_code/day_01/part2.py:68-69 | one entry per offset of the line: what the forward scan reads there |
| Day01Part2.Ends | src/advent_of_code/day_01/part2.py:73-75 | one entry per position of the line: what ends there |
| Day01Part2.FirstSome | src/advent_of_code/day_01/part2.py:68-71 | the index found holds a value and none before it does; none is found exactly when no index holds a value |
| Day01Part2.LastSome | src/advent_of_code/day_01/part2.py:73-77 | the index found holds a value and none after it does; none is found exactly when no index holds a value |
| Day01Part2.StartGivesEnd | src/advent_of_code/day_01/part2.py:68-77 | when something starts in a line, something ends in it, so the backward loop finds a digit whenever the forward loop does |
| Day01Part2.StartEnd | src/advent_of_code/day_01/part2.py:68-77 | a digit or word starting at an offset ends at a position at or after it |
| Day01Part2.SomePrefixKey | src/advent_of_code/day_01/part2.py:35-37 | a lookup that succeeds without a leading digit has some word beginning the text |
| Day01Part2.TrailingFound | src/advent_of_code/day_01/part2.py:73-77 | a text ending in a digit or in a word has a trailing number |
| Day01Part2.PrefixEnds | src/advent_of_code/day_01/part2.py:68-77 | a word that begins the text at an offset ends the prefix that stops where the word stops |
| Day01Part2.EndGivesStart | src/advent_of_code/day_01/part2.py:68-77 | when something ends in a line, something starts in it |
| Day01Part2.EndStart | src/advent_of_code/day_01/part2.py:68-77 | a digit or word ending at a position starts at an offset at or before it |
| Day01Part2.SomeSuffixKey | src/advent_of_code/day_01/part2.py:73-77 | a trailing lookup that succeeds without a trailing digit has some word ending the text |
| Day01Part2.LeadingFound | src/advent_of_code/day_01/part2.py:32-37 | a text beginning with a digit or with a word has a leading number |
| Day01Part2.SuffixBegins | src/advent_of_code/day_01/part2.py:68-77 | a word ending at a position begins the text at the offset it starts from |
| Day01Part2.FirstStartIsUnique | src/advent_of_code/day_01/part2.py:68-71 | there is at most one first offset where a digit or word starts |
| Day01Part2.LastEndIsUnique | src/advent_of_code/day_01/part2.py:73-77 | there is at most one last position where a digit or word ends |
| Day01Part2.CalibrationValue | src/advent_of_code/day_01/part2.py:66-79 | a line's value is at most 99 |
| Day01Part2.CalibrationValueNone | src/advent_of_code/day_01/part2.py:68-79 | a line has no value exactly when no digit and no word of the table occurs in it |
| Day01Part2.ValueOfFirstAndLast | src/advent_of_code/day_01/part2.py:68-79 | the value is ten times the digit starting at the smallest offset plus the digit ending at the largest position |
| Day01Part2.DigitsTable | src/advent_of_code/day_01/part2.py:4-15 | DIGITS has non-empty words and digit values |
| Day01Part2.GetCalibrationValue | src/advent_of_code/day_01/part2.py:40-79 | the source's line scan over DIGITS and REVERSED_DIGITS computes exactly the line's value |
| Day01Part2.ScanLine | src/advent_of_code/day_01/part2.py:66-79 | both loops followed by the combination give the line's value under any table, scanned backward through its reversed copy |
| Day01Part2.ScanForward | src/advent_of_code/day_01/part2.py:68-71 | the forward loop stops at the first offset where a digit or word starts and returns what starts there, or nothing when nothing starts anywhere |
| Day01Part2.ScanBackward | src/advent_of_code/day_01/part2.py:73-77 | the backward loop stops at the last position where a digit or word ends and returns what ends there, or nothing when nothing ends anywhere |
| Day01Part2.WordFreeLineIsPartOne | src/advent_of_code/day_01/part2.py:42-49 | on a line where no word of the table occurs, part two gives the same value as part one |
| Day01Part2.WordFreeStart | src/advent_of_code/day_01/part2.py:32-37 | on such a line what starts at an offset is its digit, if it holds one |
| Day01Part2.WordFreeEnd | src/advent_of_code/day_01/part2.py:73-77 | on such a line what ends at a position is its digit, if it holds one |
| Day01Part2.LineValues | src/advent_of_code/day_01/part2.py:102 | one value per line, each the calibration value of that line |
| Day01Part2.TotalCalibrationValue | src/advent_of_code/day_01/part2.py:82-102 | a document has a total exactly when a digit or a word occurs in every one of its lines |
| Day01Part2.LineValuesPresent | src/advent_of_code/day_01/part2.py:102 | each line has a value exactly when a digit or word occurs in it, and the sum exists exactly when every line has one |
| Day01Part2.TotalBound | src/advent_of_code/day_01/part2.py:102 | a total is at most 99 times the number of lines |
| Day01Part2.LineValuesAppend | src/advent_of_code/day_01/part2.py:102 | the values of two lists of lines put together are the values of the first followed by those of the second |
| Day01Part2.TotalOfConcatenation | src/advent_of_code/day_01/part2.py:102 | the total of two documents joined line after line is the sum of their totals |
| Day01Part2.TotalFromLines | src/advent_of_code/day_01/part2.py:102 | the total of a document is the sum of the values of any lines that rebuild it |
| Day01Part2.PartOneLinesHaveNumbers | src/advent_of_code/day_01/part2.py:68-71 | every line part one can value has something part two can read |
| Day01Part2Examples.ExampleLeadingDigit | src/advent_of_code/day_01/part2.py:22-27 | `7løh` gives `'7'` with either table |
| Day01Part2Examples.ExampleLeadingWord | src/advent_of_code/day_01/part2.py:24-25 | `twofgxh` gives `'2'` with DIGITS |
| Day01Part2Examples.ExampleLeadingReversedWord | src/advent_of_code/day_01/part2.py:28-29 | `owtfgxh` gives `'2'` with REVERSED_DIGITS |
| Day01Part2Examples.TrailingWord | src/advent_of_code/day_01/part2.py:28-29 | in a table whose second entry is `two`, with no word ending another, `hxgftwo` ends in `'2'` |
| Day01Part2Examples.ExampleOneAbcTwo | src/advent_of_code/day_01/part2.py:42-43 | `1abc2` is valued 12 |
| Day01Part2Examples.ExamplePqr | src/advent_of_code/day_01/part2.py:44-45 | `pqr3stu8vwx` is valued 38 |
| Day01Part2Examples.ExampleAlternating | src/advent_of_code/day_01/part2.py:46-47 | `a1b2c3d4e5f` is valued 15 |
| Day01Part2Examples.ExampleTrebuchet | src/advent_of_code/day_01/part2.py:48-49 | `treb7uchet` is valued 77 |
| Day01Part2Examples.ExampleTwoOneNine | src/advent_of_code/day_01/part2.py:50-51 | `two1nine` is valued 29 |
| Day01Part2Examples.ExampleEightWoThree | src/advent_of_code/day_01/part2.py:52-53 | `eightwothree` is valued 83, the overlapping `two` not hiding `eight` |
| Day01Part2Examples.ExampleAbcOne | src/advent_of_code/day_01/part2.py:54-55 | `abcone2threexyz` is valued 13 |
| Day01Part2Examples.ExampleXTwOne | src/advent_of_code/day_01/part2.py:56-57 | `xtwone3four` is valued 24, the overlapping `one` not hiding `two` |
| Day01Part2Examples.ExampleFourNine | src/advent_of_code/day_01/part2.py:58-59 | `4nineeightseven2` is valued 42 |
| Day01Part2Examples.ExampleZOnEight | src/advent_of_code/day_01/part2.py:60-61 | `zoneight234` is valued 14 |
| Day01Part2Examples.ExampleSevenPqr | src/advent_of_code/day_01/part2.py:62-63 | `7pqrstsixteen` is valued 76 |
| Day01Part2Examples.TwoOneNineValue | src/advent_of_code/day_01/part2.py:50-51 | `two1nine` is valued 29 under any table of the needed shape |
| Day01Part2Examples.EightWoThreeValue | src/advent_of_code/day_01/part2.py:52-53 | `eightwothree` is valued 83 under any table of the needed shape |
| Day01Part2Examples.AbcOneFirst | src/advent_of_code/day_01/part2.py:54-55 | in `abcone2threexyz` the first reading starts at offset 3 and is the digit of `one` |
| Day01Part2Examples.AbcOneLast | src/advent_of_code/day_01/part2.py:54-55 | in `abcone2threexyz` the last reading ends at position 11 and is the digit of `three` |
| Day01Part2Examples.XTwOneValue | src/advent_of_code/day_01/part2.py:56-57 | `xtwone3four` is valued 24 under any table of the needed shape |
| Day01Part2Examples.ZOnEightValue | src/advent_of_code/day_01/part2.py:60-61 | `zoneight234` is valued 14 under any table of the needed shape |
| Day01Part2Examples.SevenPqrValue | src/advent_of_code/day_01/part2.py:62-63 | `7pqrstsixteen` is valued 76 under any table of the needed shape |
| Day01Part2Examples.ExampleDocumentValues | src/advent_of_code/day_01/part2.py:92-98 | the seven lines of the example document have the values 29, 83, 13, 24, 42, 14 and 76 |
| Day01Part2Examples.ExampleDocumentLines | src/advent_of_code/day_01/part2.py:92-98 | the seven lines of the example document rebuild it |
| Day01Part2Examples.DocumentTotal | src/advent_of_code/day_01/part2.py:99-102 | a document rebuilt from seven lines with those values totals 281 under any table |
| Day01Part2Examples.ExampleSum | src/advent_of_code/day_01/part2.py:99-100 | the seven example values sum to 281 |
| Day01Part2Examples.ExampleDocument | src/advent_of_code/day_01/part2.py:92-100 | the seven-line example document totals 281 |
| Day01Part2Examples.ExamplePartOneValues | src/advent_of_code/day_01/part2.py:42-49 | the four lines of part one's example have the same values under DIGITS as in part one: 12, 38, 15 and 77 |
| Day01Part2Examples.ExamplePartOneDocument | src/advent_of_code/day_01/part2.py:85-90 | the four-line example document totals 142 under DIGITS too |

## Left out

- The `__main__` blocks (`part1.py:42-45`, `part2.py:105-108`) read a file and print. That is I/O, and the model starts from the document text.
- `src/advent_of_code/__init__.py` only opens and reads a file, so it is not part of this model.
- Only `'0'..'9'` are digits. Python's `str.isdigit` accepts more, and the source then behaves in two ways the model does not capture:
  - Decimal digits of other scripts (Unicode category Nd), such as `'٣'` or fullwidth `'３'`, are read by `int`. On `a٣b` the source returns 33, while the model returns `None`.
  - Other digit characters, such as `'²'`, pass `isdigit` but make `int` fail.
- Documents split only at `'\n'`, as `str.splitlines` does for such text. The other separators `splitlines` knows (`'\r'`, `'\x0b'`, `'\x0c'`, U+2028 and more) are not modelled.
- How the source fails is not modelled. It raises an unbound-variable error or a `TypeError` on a line with nothing to read, and this includes an empty line. The model returns `None` for such a line and for any document containing one.
- `int()` string parsing is not modelled. The two digits are combined arithmetically: ten times the first digit's value plus the last digit's value.
- Day01Part2.ExtractLeadingNumber: requires a non-empty text. The source raises `IndexError` on an empty one, and neither loop ever passes one.
- Day01Part2.CalibrationValue: its own contract only bounds the value. Its meaning is stated by `CalibrationValueNone` and `ValueOfFirstAndLast`.
- Day01Part2.ScanForward and Day01Part2.ScanBackward return the position where they stop as a ghost result. The source keeps no such position; it appears only to state the proof.
- `DIGITS` and `REVERSED_DIGITS` are ordered lists of entries rather than dictionaries. This matches how the source uses them: only through `.items()`, in declaration order.
