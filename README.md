# practice-shell core, modelled in Dafny

A model of the three pieces of the Python practice shell that compute something
of their own:

- **Key derivation** (`Encryption`, `encryption.dfy`): `StringEncrypter` stores a
  text and a password and derives an integer key from the stored password. The
  loop carries a flag `isEven` that its comments describe as alternating between
  adding and subtracting code points, but nothing ever flips it, so every code
  point is added and the key is the sum of the code points plus the length. The
  later "make it positive" negation therefore never fires. The constructor
  stores the `text` argument in both `text` and `password`, so the key is
  derived from the text and the `password` argument is ignored. The model
  follows the code as written on both counts, and proves the consequences: the
  key is at least the length, the empty password gives 0, appending a character
  `c` adds `ord(c) + 1`, the key of a concatenation is the sum of the keys, any
  rearrangement of the characters gives the same key, and two encrypters built from the
  same text with different passwords derive the same key.
- **Number trivia** (`Characters`, `characters.dfy`): `NumberDetails` classifies
  a number as prime or composite by counting its divisors in 1..number (more
  than two means composite, so 0, 1 and every negative number come out
  "prime"), as even or odd by `number % 2`, and produces the ascending list of
  its factors and its ten-line multiplication table. The printed output of
  `factors` and `table` is modelled as the sequence of values printed.
- **Command line handling** (`Shell`, `shell.dfy`): `commandParser` splits the
  line on single spaces exactly as Python's `split(' ')` does (empty pieces
  kept), lower-cases the first piece as the command and keeps the rest, in
  order, as arguments; the prompt is chosen by comparing the current working
  directory with the initial one; and `cd` (with its aliases `change-directory`,
  `change-dir`, `chdir`) is the only command that changes the current working
  directory. The file system's "is this a directory?" is a parameter `isDir`.
  Proved: split and join are inverse both ways, the number of arguments is the
  number of spaces, the original-case first piece and the arguments rejoin to
  the line, the empty line does nothing, and each branch of `cd`.

One property of the prompt is not the plain "iff" one might expect: the home
prompt `wsb-shell:~$ ` is shown when the current directory is the initial one,
and ALSO when it is literally `~`, because the other branch prints
`wsb-shell:<directory>$ `. `PromptShowsHome` states this exactly.

The comment in `generatekey` promises an alternating sum and a key that is a
positive integer; the code gives the plain sum, and the key of the empty text
is 0. The model follows the code.

## Model

| member | source | states |
|---|---|---|
| Encryption.StringEncrypter.constructor | python-shell/modules/encryption.py:29-32 | both `text` and `password` fields hold the `text` argument; the `password` argument is dropped |
| Encryption.StringEncrypter.GenerateKey | python-shell/modules/encryption.py:34-67 | the loop with its never-flipped `isEven` flag returns `Key` of the password, the sum of the code points plus the length, at least the length; a missing password (`None`) gives no key |
| Encryption.CodePointSumNonNegative | python-shell/modules/encryption.py:44-61 | the accumulator after the loop is never negative, so the negation branch at line 58 cannot fire |
| Encryption.CodePointSumConcat | python-shell/modules/encryption.py:44-54 | the accumulated sum over a concatenation is the sum of the two sums |
| Encryption.KeyAtLeastLength | python-shell/modules/encryption.py:58-64 | the key is never smaller than the password's length |
| Encryption.KeyAppend | python-shell/modules/encryption.py:44-64 | appending a character `c` raises the key by exactly `ord(c) + 1` |
| Encryption.KeyConcat | python-shell/modules/encryption.py:41-64 | the key of a concatenation is the sum of the keys of its parts |
| Encryption.KeyOfEmpty | python-shell/modules/encryption.py:41-64 | the empty password yields the key 0 |
| Encryption.KeySwap | python-shell/modules/encryption.py:44-54 | swapping two adjacent characters does not change the key |
| Encryption.KeyPermutation | python-shell/modules/encryption.py:44-64 | any two passwords with the same characters, in any order, have the same key |
| Encryption.KeyIgnoresPasswordArgument | python-shell/modules/encryption.py:29-67 | encrypters built from the same text with any two passwords derive the same key, the key of the text |
| Characters.DivisorsUpTo | python-shell/modules/characters.py:37-44 | the divisors of `n` among 1..k are exactly the d in 1..k with `n % d == 0`, strictly ascending |
| Characters.AtMostOneIsPrime | python-shell/modules/characters.py:37-53 | for a number at most 1 (empty or one-element range) the divisors are `[]` or `[1]` and the class is "prime" |
| Characters.PrimeIffNoProperDivisor | python-shell/modules/characters.py:37-53 | from 2 on, "prime" exactly when no d with 1 < d < n divides n, and then the divisors are exactly `[1, n]` |
| Characters.FactorsEnds | python-shell/modules/characters.py:77-81 | from 1 on, the factors start with 1 and end with the number itself |
| Characters.PyModIsEuclidean | python-shell/modules/characters.py:41-65 | Python's floored `a % b`, defined from the floored quotient, equals Dafny's Euclidean `a % b` and lies in 0..b-1 for every positive divisor, so the divisor tests and the even test mean the same for negative numbers |
| Characters.NumberDetails.constructor | python-shell/modules/characters.py:28-31 | the number given is the number described |
| Characters.NumberDetails.Default | python-shell/modules/characters.py:28-31 | without a number the number described is 0 |
| Characters.NumberDetails.CheckPrimeComposite | python-shell/modules/characters.py:33-53 | the counting loop returns "composite" exactly when more than two numbers in 1..number divide it, "prime" otherwise |
| Characters.NumberDetails.CheckEvenOdd | python-shell/modules/characters.py:55-65 | "even" exactly when the number is twice some integer, "odd" exactly when it is twice some integer plus one, negatives included |
| Characters.NumberDetails.Table | python-shell/modules/characters.py:67-72 | exactly ten lines; line i (1 to 10) is `number x i = number * i` |
| Characters.NumberDetails.Factors | python-shell/modules/characters.py:74-81 | the printed factors are exactly the divisors in 1..number, strictly ascending |
| Shell.Split | python-shell/main.py:85-88 | `split(' ')` always yields at least one piece |
| Shell.JoinSplit | python-shell/main.py:85-88 | joining the pieces of a split with single spaces gives the line back |
| Shell.SplitLength | python-shell/main.py:85-88 | a split has exactly one piece more than the line has spaces |
| Shell.SplitPiecesHaveNoSpace | python-shell/main.py:85-88 | no piece of a split contains a space |
| Shell.SplitJoin | python-shell/main.py:85-88 | splitting the join of a non-empty list of space-free pieces gives the list back |
| Shell.SplitWord | python-shell/main.py:85-88 | a line without spaces splits into itself alone |
| Shell.SplitWordSpace | python-shell/main.py:85-88 | a space-free word, a space and a rest split into the word followed by the pieces of the rest |
| Shell.Lower | python-shell/main.py:85 | lower-casing keeps the length and maps each character on its own |
| Shell.LowerIdempotent | python-shell/main.py:85 | lower-casing an already lower-cased command changes nothing |
| Shell.ParseArgumentCount | python-shell/main.py:85-88 | the number of arguments is the number of spaces in the line |
| Shell.ParseRoundTrip | python-shell/main.py:85-88 | the command is the first piece lower-cased; the first piece in its original case and the arguments, joined by single spaces, are the line |
| Shell.ParseWord | python-shell/main.py:85-88 | a line without spaces is all command, lower-cased, with no arguments |
| Shell.ParseFirstSpace | python-shell/main.py:85-88 | the command is the text before the first space, lower-cased; the arguments are the pieces of the text after it |
| Shell.ParseEmpty | python-shell/main.py:85-98 | the empty line gives command `''` and no arguments, and executing it changes nothing |
| Shell.PromptShowsHome | python-shell/main.py:59-66 | the home prompt appears exactly when the directory is the initial one or is literally `~`; otherwise the prompt carries the directory |
| Shell.CdHome | python-shell/main.py:193-205 | `cd` without arguments or with an empty first argument returns to the initial directory |
| Shell.CdExisting | python-shell/main.py:209-213 | `cd` to an existing directory makes that argument the current directory |
| Shell.CdMissing | python-shell/main.py:214-224 | `cd` to a non-directory leaves the directory unchanged, showing help exactly for `--help`/`-h` in any case, and reporting no such directory otherwise |
| Shell.OnlyCdMoves | python-shell/main.py:91-849 | no command other than `cd` and its aliases changes the current working directory |
| Shell.CdLines | python-shell/main.py:59-213 | the typed lines `cd` and `cd ` go home; `CD d` for an existing space-free directory `d` moves there; after `cd d` the prompt is `wsb-shell:d$ ` unless `d` is the initial directory, and it is not the home prompt unless `d` is `~` |
| Shell.CdHomeLine | python-shell/main.py:85-205 | a `cd` alias in any case, typed alone, followed by one trailing space, or followed by two spaces and anything (an empty first argument), returns to the initial directory and the next prompt is the home prompt |
| Shell.CdThereAndBack | python-shell/main.py:85-213 | `cd d` to an existing directory and then a bare `cd` lead back to the initial directory |
| Shell.Shell.constructor | python-shell/main.py:53-54 | the initial directory is `<program directory>/data/` and the shell starts there |
| Shell.Shell.SelectPrompt | python-shell/main.py:59-66 | the prompt is the one for the current directory; it is the home prompt exactly when the directory is the initial one or `~` |
| Shell.Shell.CommandParser | python-shell/main.py:75-89 | the appending loop builds the parsed token; it has as many arguments as spaces and rejoins to the line |
| Shell.Shell.ExecuteCommand | python-shell/main.py:91-229 | the new current directory and the outcome (blank, exit, moved, help, no such directory, other) are those of the `cd` state machine |
| Shell.Shell.Iterate | python-shell/main.py:57-73 | one pass of the loop: prompt from the old directory, the line stored, then parsed and executed |

## Left out

- The file/directory encryption engine (cipher, filename transform, config store, batch processing, hashing): `encrypt` and `decrypt` are empty in `python-shell/modules/encryption.py:69-77`, and no other code implements it.
- Shell.Lower: models `str.lower()` on ASCII letters only; Unicode case mappings outside A-Z (including ones that change the length) are not modelled.
- Encryption.Ord: a Dafny `char` is a Unicode scalar value, so lone surrogate code points, which a Python string may hold, are not modelled.
- Encryption.StringEncrypter.GenerateKey: a stored value that is neither `None` nor a string (any other iterable) is not modelled; fields are `Option<string>`.
- Characters.NumberDetails: only integer numbers are modelled; the shell passes `int(...)` values. The `execute=True` argument and `printPattern` used by the shell are not defined in the class and are not modelled.
- Printing: `table` and `factors` are modelled as the sequences of values they print, not the text (`Table for n :`, the trailing commas).
- Shell.Shell.ExecuteCommand: commands other than the empty one, `exit` and `cd` are reported as `Delegated`; their I/O (file listing, networking, HTTP, mail, arithmetic on floats, help text) is not modelled. None of them changes the current working directory. An exception escaping a command ends the Python program; that is not modelled.
- The file system: `chdir`, `mkdir` and the `data/` directory creation in the constructor are I/O; `path.isdir` is the parameter `isDir`, evaluated at the time of the call.
- The REPL: `input()`, the endless `while True` loop and `exit()`; one pass of the loop is `Shell.Shell.Iterate`, with the typed line as a parameter.
- `python-shell/modules/networking.py`, `regular.py` and `image.py`: networking I/O, a platform constant and a docstring.
