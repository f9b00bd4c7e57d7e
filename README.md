# Title casing in go-basher-demo

This project models `makeTitleCase`, the Go function that the bash test
suite of go-basher-demo exports into its bash context as the command
`make-title-case`. The function reads all of standard input and removes
every line feed at either end (`strings.Trim(s, "\n")`). It then walks the
runes once, left to right, with a flag `spacePrev`. A letter that is the
first rune, or that follows a whitespace rune, is replaced in place by its
upper-case form. Whitespace sets the flag; every other rune clears it. The
result is printed with one trailing line feed.

Files and modules:

- `unicode.dfy`, module `Unicode`: the three rune predicates of Go's
  `unicode` package (`IsLetter`, `IsSpace`, `ToUpper`). A `Table` holds any
  three such functions. Named predicates list the facts about the real
  Unicode tables that the proofs use: `ToUpper` is idempotent; it keeps
  letters letters and non-spaces non-spaces; no letter is whitespace; the
  line feed is whitespace. `Ascii` is a concrete table (ASCII letters,
  Go's whitespace below U+0100) that has all of them.
- `trim.dfy`, module `NewlineTrim`: `strings.Trim(s, "\n")` as the function
  `TrimNewlines`, built from the counts of leading and trailing line feeds.
- `title_case.dfy`, module `TitleCasing`: the reference definition
  `TitleCase`, which says rune by rune what the output is, and the line
  `TitleLine` that gets printed. `MakeTitleCase` is the routine itself: it
  copies the trimmed text into a rune array and hands it to
  `CapitaliseInPlace`, the single pass with `spacePrev` that updates the
  array in place. The loop invariant says that `spacePrev` holds exactly
  when the previous rune was whitespace. The postconditions say the array
  ends up equal to `TitleCase` of its old contents and the printed line
  equals `TitleLine`. The lemmas prove
  what the routine promises about that line.

Standard input becomes the parameter `input` of `MakeTitleCase`. The printed
line becomes its result `out`.

## Model

| member | source | states |
|---|---|---|
| `Unicode.AsciiIsLetter` | tests/bash_test.go:35 | the concrete table's `unicode.IsLetter`: true for 'a'..'z' and 'A'..'Z' only, so every letter it accepts is below U+0080 |
| `Unicode.Latin1IsSpace` | tests/bash_test.go:38 | the concrete table's `unicode.IsSpace`: tab, line feed, vertical tab, form feed, carriage return, space, U+0085 and U+00A0, which is Go's whitespace below U+0100; it is false for every rune from U+0100 on, and no rune it accepts is an ASCII letter |
| `Unicode.AsciiToUpper` | tests/bash_test.go:36 | each lower-case ASCII letter is mapped to its own capital (the same distance from 'A' as the letter is from 'a'), and every rune that is not a lower-case ASCII letter is returned unchanged |
| `Unicode.AsciiIsLawful` | tests/bash_test.go:35-39 | the ASCII table satisfies every law the proofs assume of Go's Unicode tables |
| `NewlineTrim.LeadingNewlines` | tests/bash_test.go:30 | the count is at most the length; every counted rune is a line feed; the rune after them, if any, is not one |
| `NewlineTrim.TrailingNewlines` | tests/bash_test.go:30 | the count is at most the length; every counted final rune is a line feed; the rune before them, if any, is not one |
| `NewlineTrim.TrimNewlines` | tests/bash_test.go:30 | the trimmed text is a contiguous slice of the input; everything cut on either side is line feeds; the slice neither starts nor ends with a line feed |
| `NewlineTrim.TrimKeepsTrimmed` | tests/bash_test.go:30 | text with no line feed at either end is returned unchanged |
| `NewlineTrim.TrimIdempotent` | tests/bash_test.go:30 | trimming the trimmed text changes nothing |
| `NewlineTrim.TrimDropsAddedNewline` | tests/bash_test.go:30 | one line feed appended to trimmed text is removed again |
| `TitleCasing.StartsWord` | tests/bash_test.go:35 | the second half of the first case's guard, "`i == 0` or `spacePrev`", stated on the input: the rune is the first one or the rune before it is whitespace |
| `TitleCasing.Capitalised` | tests/bash_test.go:35 | the whole guard of the first case: the rune is a letter and opens a word |
| `TitleCasing.TitleCase` | tests/bash_test.go:32-43 | the capitalisation pass never changes the number of runes |
| `TitleCasing.TitleLine` | tests/bash_test.go:45 | the printed line is the title-cased trimmed body followed by a line feed |
| `TitleCasing.MakeTitleCase` | tests/bash_test.go:24-46 | trimming, copying into a rune array, the in-place pass and printing give exactly the title-cased trimmed input plus one line feed |
| `TitleCasing.CapitaliseInPlace` | tests/bash_test.go:31-43 | the in-place loop with the `spacePrev` flag leaves the array equal to `TitleCase` of its old contents; its invariant says the flag is true exactly when the previous rune is whitespace, the runes already visited are title-cased and the rest are untouched |
| `TitleCasing.NoCapitalAfterNonSpace` | tests/bash_test.go:40-41 | a rune that follows a non-whitespace rune, such as a digit or punctuation, is kept as it is |
| `TitleCasing.TitleCaseKeepsClasses` | tests/bash_test.go:35-41 | every output rune is a letter exactly when the input rune is, and whitespace exactly when the input rune is |
| `TitleCasing.TitleCaseKeepsWordStarts` | tests/bash_test.go:35-41 | the output has word starts and capitalisable letters at exactly the same positions as the input |
| `TitleCasing.TitleCaseIdempotent` | tests/bash_test.go:35-41 | title-casing already title-cased text changes nothing |
| `TitleCasing.TitleCaseKeepsEnds` | tests/bash_test.go:30-36 | title-casing text that has no line feed at either end cannot create one there |
| `TitleCasing.TitleLineHasOneNewline` | tests/bash_test.go:30-45 | the printed line ends with exactly one line feed: the rune before the final one, if any, is not a line feed |
| `TitleCasing.TitleLineIdempotent` | tests/bash_test.go:24-46 | feeding the printed line back in prints the same line again |
| `TitleCasing.TitleCaseSplitsAtSpace` | tests/bash_test.go:31-42 | text cut right after a whitespace rune is title-cased piece by piece |
| `TitleCasing.TitleCaseWord` | tests/bash_test.go:35-41 | a word that starts with a letter and has no inner whitespace gets only its first letter upper-cased |
| `TitleCasing.ExampleSentence` | tests/bash_test.go:87 | with the ASCII table, "this should be in title case" becomes "This Should Be In Title Case" |
| `TitleCasing.TitleCaseExample` | tests/bash_test.go:84-87 | with the ASCII table, the input "this should be in title case" plus a line feed prints "This Should Be In Title Case" plus a line feed, the line the test expects |

## Left out

- The Gob interception engine (`Stub`, `Spy`, `SpyAndCallThrough`, `SpyAndConditionallyCallThrough`, `Mock`, `MockOrCallThrough`, `ApplyMocks`) and the `<n> name args` log lines: the engine is imported from the package `github.com/jhvhs/gob-mock`, whose source is not part of this model; the test file only calls it.
- The go-basher context (`basher.NewContext`, `Source`, `CopyEnv`, `Run`, `ExportFunc`, `HandleFuncs`): it runs an external bash interpreter.
- `getInternalBash`: a filesystem check and asset restore, which is I/O.
- Reading standard input and the `log.Fatal` on a read error: the input is a parameter, so the read cannot fail in the model.
- Printing with `fmt.Println`: the printed line is the method's result.
- Decoding the input bytes as UTF-8 (`string(bytes)` and `[]rune(...)`, where an invalid byte becomes U+FFFD): the input is already a sequence of runes.
- The unused `args` parameter of `makeTitleCase`.
- The Unicode tables behind `unicode.IsLetter`, `unicode.IsSpace` and `unicode.ToUpper`: they are abstract functions with the laws listed above. The one concrete table knows only ASCII letters.
- `TitleCasing.MakeTitleCase` and `TitleCasing.CapitaliseInPlace`: require that no letter is whitespace. This is a fact about Unicode, not a demand on callers. Without it, the flag after a capitalised letter would not match the original rune.
- The text the bash script `convertToTitle` pipes into `make-title-case`: the script file `scripts/script-under-test.bash` is not part of this model. The example lemmas assume the sentence the test expects, in lower case, followed by a line feed.
- The spec/gomega test harness and the `gbytes` buffers: they are test-runner plumbing.
