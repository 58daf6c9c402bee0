# ShiftCipher in Dafny

A verified model of the ShiftCipher programs, `ShiftEncipher` and `ShiftDecipher`.
They are two C++ command-line tools implementing a Caesar-style shift cipher.

How enciphering works:
- Four fixed alphabets are rotated independently: upper-case letters (26), lower-case letters (26), decimal digits (10) and 32 ASCII punctuation symbols.
- The letters are always rotated.
- Digits and punctuation are rotated only when asked for.
- The signed shift amount is reduced into `[0, m)` for each alphabet of size `m` (`calcReducedShift` / `calculateEffectiveShift`).
- The rotated alphabets come from `std::valarray::cshift`.
- They are entered into a `std::map<char,char>`. The encipherer maps original to rotated; the decipherer maps rotated to original.
- Every line of the input file is rewritten character by character through that map.

Both programs first parse their command line, which:
- takes long options and combined one-letter options such as `-np`;
- reads the shift with `std::stoi`;
- writes the results into one options object: `CipherOptions` for the encipherer, `DecipherCtrlOpts` for the decipherer.

## Where the code and its comments disagree

The model follows the code as written in each of these cases:
- **Decipher flags initialiser.** The decipherer's flags initialiser `0b01000000` sets bit 6. The comments next to it describe bit 1, the "default output name" bit, as set.
  - As written, the ".dec" default name is never used (`Decipher.DefaultNameBitStaysClear`).
  - So without `-o` or `--ofile` the output path is the empty name `""` (`Decipher.OutputNameWithoutOfile`), no `ofstream` opens under it, and the decipherer always fails with a file-system error (ShiftCipher/src/ShiftDecipher.cpp:723-739).
- **Unknown letter in a combined token.** Both programs clear option flags before they throw `invalid_argument`, including flags that earlier, separate tokens set:
  - the decipherer's scan clears bits 0, 2, 3 and 7 (ShiftCipher/src/ShiftDecipher.cpp:477-484), and the token then throws (ShiftCipher/src/ShiftDecipher.cpp:611-614);
  - the encipherer's scan clears numbers, punctuation and log, then throws (ShiftCipher/src/ShiftEncipher.cpp:424-437).
- **Letters after an unknown letter in a combined token.** The two programs treat them differently:
  - the decipherer keeps scanning after an unknown letter, so `-xh` asks for HELP;
  - the encipherer throws at the first unknown letter.
- **Digits long option.** It is `--shift-numbers` for the decipherer and `--shift-nums` for the encipherer. `--shift-numbers` given to the encipherer is rejected as a malformed combined token.
- **Encipherer output file.** The encipherer does not check that its output file opened. Its reads and the byte count go on while the writes are lost.
- **Encipherer suffix.** The encipherer's default suffix is `.ciph`.

## Modules

| module | file | contents |
|---|---|---|
| `Modular` | modular.dfy | the reduced shift and the shared reduction loop |
| `Alphabets` | alphabets.dfy | the four alphabets as ASCII runs |
| `Rotation` | rotation.dfy | `cshift`, and in-order map insertion with its loop |
| `Tables` | tables.dfy | the dictionary in either direction, the four insertion loops, and its inverse and bijection lemmas |
| `Substitution` | substitution.dfy | the per-line transform and its loop |
| `CppStd` | cppstd.dfy | `find_last_of`/`npos`, `stoi`, the `int` range, `bitset<8>` and the exceptions |
| `Decipher` | decipher.dfy | `DecipherCtrlOpts` and the decipherer's steps |
| `Encipher` | encipher.dfy | `CipherOptions` and the encipherer's steps |
| `RoundTrip` | roundtrip.dfy | both programs composed |

Each parser is specified by three functions:
- `ParseStep`: one pass of the loop body;
- `ParseLoop`: the loop;
- `ParseSpec`: the whole function.

The class methods are proved equal to these specifications. The lemmas state what the specifications promise.

## Model

| member | source | states |
|---|---|---|
| `Modular.ReducedShift` | ShiftCipher/src/ShiftEncipher.cpp:138-152 | the reduced shift lies in `[0, m)` and differs from the shift by a multiple of `m` |
| `Modular.CalcReducedShift` | ShiftCipher/src/ShiftDecipher.cpp:317-331 | the raise-until-non-negative loop or `%` returns a value in `[0, m)` that is the reduced shift, for any sign of the shift |
| `Modular.ReducedShiftPeriodic` | ShiftCipher/src/ShiftDecipher.cpp:116-122 | adding whole turns `j*m` to the shift does not change the reduced shift |
| `Modular.ReducedShiftUnique` | ShiftCipher/src/ShiftEncipher.cpp:56-62 | any value in `[0, m)` congruent to the shift is the reduced shift |
| `Alphabets.AlphabetShape` | ShiftCipher/src/ShiftDecipher.cpp:156-183 | each alphabet has its class's size (26, 26, 10, 32), lists no symbol twice, and holds exactly its class's characters |
| `Alphabets.PunctsShape` | ShiftCipher/src/ShiftEncipher.cpp:104-111 | the punctuation array has 32 distinct symbols: exactly the printable ASCII symbols that are neither letters nor digits |
| `Alphabets.ClassesDisjoint` | ShiftCipher/src/ShiftEncipher.cpp:84-111 | no character belongs to two alphabets |
| `Rotation.Cshift` | ShiftCipher/src/ShiftDecipher.cpp:663-666 | reference definition of `valarray::cshift`: same length, position `i` holds the symbol at `(i + k) mod m` |
| `Rotation.Inserted` | ShiftCipher/src/ShiftDecipher.cpp:668-682 | reference definition of the insertion loops: the map after `dict[keys[n]] = vals[n]` for every `n` in order |
| `Rotation.CshiftMembers` | ShiftCipher/src/ShiftEncipher.cpp:485-488 | a rotated alphabet holds the same symbols as the original |
| `Rotation.CshiftDistinct` | ShiftCipher/src/ShiftDecipher.cpp:663-666 | rotating an alphabet without repeats gives one without repeats |
| `Rotation.CshiftZero` | ShiftCipher/src/ShiftDecipher.cpp:665-666 | `cshift(0)` is the alphabet itself |
| `Rotation.InsertedKeys` | ShiftCipher/src/ShiftDecipher.cpp:668-682 | after the insertions the keys are the old keys plus the inserted ones |
| `Rotation.InsertedAt` | ShiftCipher/src/ShiftEncipher.cpp:490-504 | with distinct keys, every inserted key keeps the value inserted at its own position |
| `Rotation.InsertedAppend` | ShiftCipher/src/ShiftDecipher.cpp:668-678 | running one insertion loop after another is inserting the concatenated pairs |
| `Rotation.InsertPairs` | ShiftCipher/src/ShiftDecipher.cpp:668-670 | the loop `dict[keys[n]] = vals[n]` leaves the map the in-order insertion of all pairs defines |
| `Tables.ClassKeysVals` | ShiftCipher/src/ShiftEncipher.cpp:490-504 | one class's loop inserts `Size(cl)` pairs; its keys and its values each list every symbol of the class once |
| `Tables.InsertClassPairs` | ShiftCipher/src/ShiftEncipher.cpp:485-492 | one class's loop pairs the alphabet with its `cshift`: alphabet as keys when enciphering, rotation as keys when deciphering |
| `Tables.InsertedByClass` | ShiftCipher/src/ShiftDecipher.cpp:668-682 | the four class loops one after the other insert all 94 pairs in order |
| `Tables.InsertAllPairs` | ShiftCipher/src/ShiftDecipher.cpp:663-682 | the four loops of generateCipherDict add the 94 pairs of the chosen direction to the dictionary |
| `Tables.Table` | ShiftCipher/src/ShiftEncipher.cpp:485-505 | reference definition of the dictionary: the 94 pairs of the chosen direction inserted into an empty map |
| `Tables.KeysShape` | ShiftCipher/src/ShiftDecipher.cpp:668-682 | the 94 keys are pairwise distinct and are exactly the symbols of the four alphabets |
| `Tables.TableKeys` | ShiftCipher/src/ShiftEncipher.cpp:485-505 | the dictionary's keys are exactly the 94 symbols, whatever the shifts and flags |
| `Tables.TableAt` | ShiftCipher/src/ShiftDecipher.cpp:668-682 | every pair a class's loop inserts survives: no other insertion overwrites it |
| `Tables.ForwardAt` | ShiftCipher/src/ShiftEncipher.cpp:490-504 | enciphering sends `A[n]` to `A[(n + r) mod m]` |
| `Tables.BackwardAt` | ShiftCipher/src/ShiftDecipher.cpp:668-682 | deciphering sends `A[(n + r) mod m]` back to `A[n]` |
| `Tables.TableInverse` | ShiftCipher/src/ShiftDecipher.cpp:645-685 | with the same shifts, the decipher dictionary undoes the encipher dictionary on every symbol, and the other way round |
| `Tables.TableUndo` | ShiftCipher/src/ShiftEncipher.cpp:467-507 | either dictionary followed by the opposite one is the identity on the 94 symbols |
| `Tables.TableStaysInClass` | ShiftCipher/src/ShiftEncipher.cpp:485-504 | every symbol is a key and is mapped into its own class |
| `Tables.TableInjectiveOnClass` | ShiftCipher/src/ShiftDecipher.cpp:668-682 | within a class, two symbols with the same image are equal |
| `Tables.TableOntoClass` | ShiftCipher/src/ShiftEncipher.cpp:490-504 | every symbol of a class is the image of a symbol of that class; with the two lemmas above, the dictionary is a bijection of each alphabet |
| `Tables.UnshiftedClassIdentity` | ShiftCipher/src/ShiftDecipher.cpp:665-682 | a class whose shift is 0 (digits or punctuation not enabled) is mapped to itself symbol by symbol |
| `Substitution.MapLine` | ShiftCipher/src/ShiftDecipher.cpp:747-754 | the transformed line has the input's length; character `i` is the entry of a key, or itself otherwise |
| `Substitution.MapText` | ShiftCipher/src/ShiftDecipher.cpp:746-760 | the output has one transformed line per input line |
| `Substitution.LinesRead` | ShiftCipher/src/ShiftDecipher.cpp:719-746 | reference definition of what `getline` reads once the output is open: nothing when the output path is the input path, which the open truncates, every line otherwise |
| `Substitution.TransformLine` | ShiftCipher/src/ShiftEncipher.cpp:558-565 | the `push_back` loop produces exactly the transformed line |
| `Substitution.MapLineUndo` | ShiftCipher/src/ShiftDecipher.cpp:746-754 | if the second dictionary undoes the first on every character, transforming twice gives the line back |
| `Substitution.MapLineIdentity` | ShiftCipher/src/ShiftEncipher.cpp:558-565 | a dictionary mapping each key to itself changes no line |
| `CppStd.FindLastOf` | ShiftCipher/src/ShiftDecipher.cpp:448 | `npos` exactly when the character is absent, or else the index of its last occurrence |
| `CppStd.StoI` | ShiftCipher/src/ShiftDecipher.cpp:564 | a parsed value lies in the `int` range; a failure is `invalid_argument` or `out_of_range` |
| `CppStd.StoIToDecimal` | ShiftCipher/src/ShiftEncipher.cpp:351 | `stoi` reads every `int` back from its decimal spelling |
| `CppStd.BitsetOf` | ShiftCipher/src/ShiftDecipher.cpp:133 | reference definition of `bitset<8>` from a number: bit `i` is binary digit `i` |
| `CppStd.BitsetOfSixtyFour` | ShiftCipher/src/ShiftDecipher.cpp:133 | the literal `0b01000000` gives a bitset with bit 6 alone set |
| `Decipher.InitialFlagBits` | ShiftCipher/src/ShiftDecipher.cpp:133-142 | at construction bit 6 is set and every other bit, the default-name bit 1 included, is clear |
| `Decipher.SingleCharOptions` | ShiftCipher/src/ShiftDecipher.cpp:442-492 | reference definition of `parseSingleCharOptions`: USER_ERROR for a misplaced `-`, else the letter-by-letter scan |
| `Decipher.ParseStep` | ShiftCipher/src/ShiftDecipher.cpp:539-624 | reference definition of one pass of the deque loop; a pass that goes on leaves a shorter deque |
| `Decipher.ParseLoop` | ShiftCipher/src/ShiftDecipher.cpp:539-628 | reference definition of the deque loop: passes until the deque is empty or a pass stops |
| `Decipher.ParseSpec` | ShiftCipher/src/ShiftDecipher.cpp:515-629 | reference definition of `parseCommandLine`: program name, USAGE when nothing follows, then the loop |
| `Decipher.OutputName` | ShiftCipher/src/ShiftDecipher.cpp:723-729 | reference definition of the output path `decipherFileText` opens |
| `Decipher.ScanVerdict` | ShiftCipher/src/ShiftDecipher.cpp:457-488 | the scan's result is decided by the last `h` or unknown letter (HELP_REQ or USER_ERROR), and is the starting code when there is none |
| `Decipher.ScanFlag` | ShiftCipher/src/ShiftDecipher.cpp:458-484 | after the scan, flags 0, 2, 3 and 7 are each on exactly when: some later letter set it with no unknown letter after it, or it was on and no unknown letter occurs |
| `Decipher.ScanKeepsOtherBits` | ShiftCipher/src/ShiftDecipher.cpp:458-484 | the scan never changes bits 1, 4, 5 or 6 |
| `Decipher.MisplacedDashRejected` | ShiftCipher/src/ShiftDecipher.cpp:446-450 | a token with a `-` past index 0, or with no `-` at all (`npos > 0`), gives USER_ERROR and changes no flag |
| `Decipher.LoneDash` | ShiftCipher/src/ShiftDecipher.cpp:453-457 | a lone `-` gives CMDLN_OK and changes nothing |
| `Decipher.HelpAfterUnknownLetter` | ShiftCipher/src/ShiftDecipher.cpp:472-488 | `-xh` gives HELP_REQ: the scan does not stop at an unknown letter |
| `Decipher.ScanNeverUsage` | ShiftCipher/src/ShiftDecipher.cpp:616-619 | the combined-token scan never yields USAGE_REQ |
| `Decipher.ProgramNameOnly` | ShiftCipher/src/ShiftDecipher.cpp:524-536 | a program name alone is stored and gives USAGE_REQ |
| `Decipher.IfileOption` | ShiftCipher/src/ShiftDecipher.cpp:542-548 | `-i name` stores the name and goes on after the name |
| `Decipher.OfileOption` | ShiftCipher/src/ShiftDecipher.cpp:549-556 | `-o name` stores the name, clears bit 1 and goes on after the name |
| `Decipher.ShiftOption` | ShiftCipher/src/ShiftDecipher.cpp:557-573 | `-s` followed by any `int` written in decimal stores that `int` and goes on |
| `Decipher.SwitchOptions` | ShiftCipher/src/ShiftDecipher.cpp:574-600 | `--shift-numbers`, `--shift-puncts`, `--shift-all` and `--show-log` set bit 2, bit 3, both, or bit 7 and go on with the next token |
| `Decipher.HelpStopsParse` | ShiftCipher/src/ShiftDecipher.cpp:590-595 | `--help` sets bit 0 and gives HELP_REQ; later tokens are not looked at and earlier effects stay |
| `Decipher.UserErrorThrows` | ShiftCipher/src/ShiftDecipher.cpp:601-615 | a combined token the scan rejects throws `invalid_argument`, with the scan's flag changes kept |
| `Decipher.StepFactsHold` | ShiftCipher/src/ShiftDecipher.cpp:539-624 | one loop pass stops only with HELP_REQ, a parse exception or the empty-deque `front()`; never sets bit 1 and leaves bits 4 to 6 alone; a pass that goes on never clears bits 2, 3 or 7 |
| `Decipher.LoopVerdicts` | ShiftCipher/src/ShiftDecipher.cpp:539-628 | started from CMDLN_OK the loop returns only CMDLN_OK or HELP_REQ, and never raises a file-system error |
| `Decipher.LoopKeepsBits` | ShiftCipher/src/ShiftDecipher.cpp:539-626 | the loop never sets bit 1 and leaves bits 4 to 6 as they were |
| `Decipher.LoopKeepsSwitches` | ShiftCipher/src/ShiftDecipher.cpp:539-628 | a parse that ends with CMDLN_OK keeps bits 2, 3 and 7 on once they are on |
| `Decipher.SwitchStaysOn` | ShiftCipher/src/ShiftDecipher.cpp:574-600 | after `--shift-numbers`/`--shift-all`, `--shift-puncts`/`--shift-all` or `--show-log`, a parse that ends with CMDLN_OK leaves bit 2, bit 3 or bit 7 on |
| `Decipher.LoopKeepsFields` | ShiftCipher/src/ShiftDecipher.cpp:539-626 | the loop leaves the input name, the output name and the shift as they were when no remaining token is `-i`/`--ifile`, `-o`/`--ofile` or `-s`/`--shift-amount` respectively |
| `Decipher.LastIfileWins` | ShiftCipher/src/ShiftDecipher.cpp:542-548 | with no later `-i` or `--ifile`, the name after the last `-i` is the input name parsing leaves |
| `Decipher.LastOfileWins` | ShiftCipher/src/ShiftDecipher.cpp:549-556 | with no later `-o` or `--ofile`, the name after the last `-o` is the output name parsing leaves |
| `Decipher.LastShiftWins` | ShiftCipher/src/ShiftDecipher.cpp:557-573 | with no later `-s` or `--shift-amount`, the value `stoi` reads after the last `-s` is the shift parsing leaves |
| `Decipher.OutputNameWithoutOfile` | ShiftCipher/src/ShiftDecipher.cpp:723-731 | without `-o` or `--ofile`, parsing from the defaults leaves an empty output path, whatever the input name |
| `Decipher.DefaultNameBitStaysClear` | ShiftCipher/src/ShiftDecipher.cpp:723-727 | whatever the command line, bit 1 is clear after parsing from the constructed defaults, so `.dec` is never appended |
| `Decipher.DefaultNameKeepsInput` | ShiftCipher/src/ShiftDecipher.cpp:719-746 | the `.dec` default path is never the input path, so with bit 1 set every input line is read; a stored output name equal to the input path leaves nothing to read |
| `Decipher.DecipherCtrlOpts.constructor` | ShiftCipher/src/ShiftDecipher.cpp:101-143 | the member initialisers: shift 5, reduced shift 5, class shifts 0, empty dictionary, no bytes, flags `0b01000000` |
| `Decipher.DecipherCtrlOpts.ParseSingleCharOptions` | ShiftCipher/src/ShiftDecipher.cpp:442-492 | the iterator loop leaves the code and flags the scan specification gives |
| `Decipher.DecipherCtrlOpts.ParseCommandLine` | ShiftCipher/src/ShiftDecipher.cpp:515-629 | the deque loop yields the outcome and fields `ParseSpec` gives, including exceptions and the empty-deque `front()` |
| `Decipher.DecipherCtrlOpts.GenerateCipherDict` | ShiftCipher/src/ShiftDecipher.cpp:645-685 | the letters' shift, the digits' and punctuation's shifts when their bits are set, and the dictionary extended by the 94 backward pairs |
| `Decipher.DecipherCtrlOpts.DecipherFileText` | ShiftCipher/src/ShiftDecipher.cpp:702-774 | fails for a missing input or an output that cannot be opened; otherwise writes every line `getline` reads deciphered (none when the output path is the input path, which the open truncates) and adds its character count to `nbytes_file`; sets the output name |
| `Encipher.ScanChars` | ShiftCipher/src/ShiftEncipher.cpp:399-438 | reference definition of the letter loop: each of a, l, n, p, h applied in order, the first other letter clears numbers, punctuation and log and stops |
| `Encipher.ParseStep` | ShiftCipher/src/ShiftEncipher.cpp:332-447 | reference definition of one pass of the `opt_number` loop; a pass that goes on moves past the current token |
| `Encipher.ParseLoop` | ShiftCipher/src/ShiftEncipher.cpp:331-453 | reference definition of the loop: passes until `opt_number` reaches the end or a pass stops |
| `Encipher.ParseSpec` | ShiftCipher/src/ShiftEncipher.cpp:306-454 | reference definition of `parseCommandLine`: `at(0)` throws on an empty line, the name is appended, 1 when nothing follows, then the loop |
| `Encipher.OutputName` | ShiftCipher/src/ShiftEncipher.cpp:539-546 | reference definition of the output path `encipherFileText` opens |
| `Encipher.ScanValid` | ShiftCipher/src/ShiftEncipher.cpp:400-437 | the letter loop completes exactly when every letter is one of a, l, n, p, h |
| `Encipher.ScanKeepsOthers` | ShiftCipher/src/ShiftEncipher.cpp:400-438 | the letter loop changes only the numbers, punctuation and log options |
| `Encipher.ScanCompleted` | ShiftCipher/src/ShiftEncipher.cpp:400-423 | a completed loop asks for HELP iff an `h` occurs; numbers on iff a or n, punctuation on iff a or p, log on iff l (or already on) |
| `Encipher.ScanFailed` | ShiftCipher/src/ShiftEncipher.cpp:424-437 | a loop stopped by an unknown letter leaves numbers, punctuation and log off |
| `Encipher.ShortCommandLines` | ShiftCipher/src/ShiftEncipher.cpp:316-328 | an empty command line throws `out_of_range`; a program name alone is appended and returns 1 |
| `Encipher.MissingValueThrows` | ShiftCipher/src/ShiftEncipher.cpp:334-353 | `-i`, `-o` or `-s` as the last token throws `out_of_range` and changes nothing |
| `Encipher.IfileOption` | ShiftCipher/src/ShiftEncipher.cpp:334-339 | `-i name` stores the name and goes on after the name |
| `Encipher.OfileOption` | ShiftCipher/src/ShiftEncipher.cpp:340-346 | `-o name` stores the name, turns the default name off and goes on after the name |
| `Encipher.ShiftOption` | ShiftCipher/src/ShiftEncipher.cpp:347-353 | `-s` followed by any `int` written in decimal stores that `int` and goes on |
| `Encipher.MisplacedDashRejected` | ShiftCipher/src/ShiftEncipher.cpp:395-397 | a token that is no option, with a `-` past index 0 or no `-` at all (`npos > 0`), throws `invalid_argument` and changes nothing |
| `Encipher.ShiftNumbersRejected` | ShiftCipher/src/ShiftEncipher.cpp:395-397 | the decipherer's `--shift-numbers` throws `invalid_argument` here |
| `Encipher.HelpThenLetter` | ShiftCipher/src/ShiftEncipher.cpp:417-421 | `-hn` returns 1 with numbers turned on: letters after `h` still count |
| `Encipher.HelpThenUnknownLetter` | ShiftCipher/src/ShiftEncipher.cpp:424-437 | `-hx` still throws `invalid_argument`, with the three scan options cleared |
| `Encipher.SwitchOptions` | ShiftCipher/src/ShiftEncipher.cpp:354-380 | `--shift-nums`, `--shift-puncts`, `--shift-all` and `--show-log` turn on numbers, punctuation, both, or the log and go on with the next token |
| `Encipher.HelpStopsParse` | ShiftCipher/src/ShiftEncipher.cpp:370-375 | `--help` returns 1 and ends the loop; later tokens are not looked at and earlier effects stay |
| `Encipher.HelpLetterStopsParse` | ShiftCipher/src/ShiftEncipher.cpp:395-447 | a well-formed combined token holding an `h` returns 1 and ends the loop, with the options its other letters set |
| `Encipher.StepFactsHold` | ShiftCipher/src/ShiftEncipher.cpp:331-451 | one loop pass returns only 1, and only for `--help` or a combined token holding `h`; throws only `invalid_argument`/`out_of_range`; turns the default name off only for `-o`; a pass that does not throw never turns numbers, punctuation or the log off |
| `Encipher.LoopFacts` | ShiftCipher/src/ShiftEncipher.cpp:331-453 | the loop returns 0 or 1, and 1 only when a later token is `--help` or a combined token holding `h`; throws only `invalid_argument`/`out_of_range`; never turns the default name on, and turns it off only when an `-o`/`--ofile` token follows |
| `Encipher.LoopKeepsSwitches` | ShiftCipher/src/ShiftEncipher.cpp:331-453 | a parse that returns keeps numbers, punctuation and the log on once they are on |
| `Encipher.SwitchStaysOn` | ShiftCipher/src/ShiftEncipher.cpp:354-380 | after `--shift-nums`/`--shift-all`, `--shift-puncts`/`--shift-all` or `--show-log`, a parse that returns leaves numbers, punctuation or the log on |
| `Encipher.NoHelpReturnsZero` | ShiftCipher/src/ShiftEncipher.cpp:309-453 | with no token asking for HELP, a loop that returns returns 0 |
| `Encipher.LoopKeepsFields` | ShiftCipher/src/ShiftEncipher.cpp:331-451 | the loop leaves the input name, the output name and the shift as they were when no later token is `-i`/`--ifile`, `-o`/`--ofile` or `-s`/`--shift-amount` respectively |
| `Encipher.LastIfileWins` | ShiftCipher/src/ShiftEncipher.cpp:334-339 | with no later `-i` or `--ifile`, the name after the last `-i` is the input name parsing leaves |
| `Encipher.LastOfileWins` | ShiftCipher/src/ShiftEncipher.cpp:340-346 | with no later `-o` or `--ofile`, the name after the last `-o` is the output name parsing leaves |
| `Encipher.LastShiftWins` | ShiftCipher/src/ShiftEncipher.cpp:347-353 | with no later `-s` or `--shift-amount`, the value `stoi` reads after the last `-s` is the shift parsing leaves |
| `Encipher.ParseFacts` | ShiftCipher/src/ShiftEncipher.cpp:306-454 | from the defaults, parsing returns 0 or 1 or throws one of the two; 1 only for a program name alone or a token asking for HELP; without `-o` the `.ciph` default name stays on |
| `Encipher.DefaultNameKeepsInput` | ShiftCipher/src/ShiftEncipher.cpp:535-557 | the `.ciph` default path is never the input path, so with the default name every input line is read; an `-o` name equal to the input path leaves nothing to read |
| `Encipher.CipherOptions.constructor` | ShiftCipher/src/ShiftEncipher.cpp:40-76 | the member initialisers: default name on, shift 5, effective shift 5, class shifts 0, options off, empty dictionary, no bytes |
| `Encipher.CipherOptions.ParseCommandLine` | ShiftCipher/src/ShiftEncipher.cpp:306-454 | the `opt_number` loop yields the outcome and fields `ParseSpec` gives |
| `Encipher.CipherOptions.ParseOption` | ShiftCipher/src/ShiftEncipher.cpp:332-447 | one pass of the loop body yields the step and fields `ParseStep` gives |
| `Encipher.CipherOptions.ScanCombined` | ShiftCipher/src/ShiftEncipher.cpp:399-438 | the letter loop leaves the validity, help request and options the scan specification gives |
| `Encipher.CipherOptions.GenerateCipherDict` | ShiftCipher/src/ShiftEncipher.cpp:467-507 | the effective shift, the numbers' and punctuation's shifts when enabled, and the dictionary extended by the 94 forward pairs |
| `Encipher.CipherOptions.EncipherFileText` | ShiftCipher/src/ShiftEncipher.cpp:521-584 | fails for a missing input; otherwise names the output, writes every line `getline` reads enciphered (none when the opened output path is the input path; lost when the output did not open) and adds the character count |
| `RoundTrip.TablesUndoEachOther` | ShiftCipher/src/ShiftDecipher.cpp:668-682 | for the same shift and options, each program's dictionary undoes the other's on every character |
| `RoundTrip.TextRoundTrip` | ShiftCipher/src/ShiftDecipher.cpp:746-760 | deciphering enciphered text gives it back, and enciphering deciphered text does too |
| `RoundTrip.OtherCharactersCopied` | ShiftCipher/src/ShiftEncipher.cpp:562-564 | a character outside the four alphabets passes through both programs unchanged |
| `RoundTrip.DisabledClassesCopied` | ShiftCipher/src/ShiftEncipher.cpp:473-481 | a digit with numbers off, or punctuation with punctuation off, passes through unchanged |
| `RoundTrip.ZeroShiftIdentity` | ShiftCipher/src/ShiftEncipher.cpp:140-149 | shift 0 leaves every text unchanged in both programs |
| `RoundTrip.ShiftPeriod` | ShiftCipher/src/ShiftEncipher.cpp:56-62 | shifts that differ by a multiple of 2080 (the lcm of 26, 10 and 32) give the same dictionaries |
| `RoundTrip.LetterShiftPeriod` | ShiftCipher/src/ShiftDecipher.cpp:116-120 | with letters only, shifts that differ by a multiple of 26 give the same dictionaries |
| `RoundTrip.DefaultShiftExample` | ShiftCipher/src/ShiftEncipher.cpp:52-54 | at the default shift 5, `H` enciphers to `M` and `M` deciphers to `H` |
| `RoundTrip.NegativeShiftExample` | ShiftCipher/src/ShiftEncipher.cpp:141-146 | shift -1 enciphers `a` to `z` |
| `RoundTrip.EncipherLines` | ShiftCipher/src/ShiftEncipher.cpp:191-201 | a fresh `CipherOptions` given an existing, non-empty input name, a shift and options writes to the input name plus `.ciph` the lines mapped by the forward table |
| `RoundTrip.DecipherLines` | ShiftCipher/src/ShiftDecipher.cpp:251-254 | a fresh `DecipherCtrlOpts` given an existing, non-empty input name, an output name set as `-o` sets it, a shift and flags writes to that output name the lines mapped by the backward table, and nothing when the output name is the input name |
| `RoundTrip.EncipherThenDecipher` | ShiftCipher/src/ShiftDecipher.cpp:251-261 | deciphering the `.ciph` file the encipherer wrote, with the same shift and options, returns the original lines, or nothing when the decipherer is told to write over that same file |

## Left out

- Terminal output is not modelled: `printUsage`, `printHelp`, `printLogInfo`, the "Read N characters" line, and the `std::format` messages.
- `DECIPHER_PROG_MSG` and the exception messages are not modelled; an exception is its kind alone.
- The file system is not modelled; it becomes parameters:
  - `inputExists` is the answer of `fsys::exists`;
  - `outputOpens` is whether the `ofstream` opened;
  - the input file is its sequence of lines.
- `getline`/`endl`: line splitting, end-of-line normalisation and flushing are not modelled.
- `prog_name_stripped` (`fsys::path(...).filename()`) is not modelled: it is library path semantics, used only for messages.
- `main` of either program is not modelled as such: the exception-to-exit-code mapping, the catch blocks and the `parse_res` switch are left out. `RoundTrip.EncipherLines` and `RoundTrip.DecipherLines` run the steps `main` runs on a successful parse, answering the file-system questions with "the input exists" and "the output opens"; they require the non-empty names without which the real program fails. An output path equal to the input path truncates the input before `getline` reads it, and both programs then read and write nothing (`Substitution.LinesRead`).
- RoundTrip.EncipherLines: sets the input name, shift and option fields directly, as `-i`, `-s`, `-n` and `-p` set them, instead of parsing a command line; the parser is proved separately.
- RoundTrip.DecipherLines: sets the names, the shift and the flag bits directly, as `-i`, `-o`, `-s`, `-n` and `-p` set them, instead of parsing a command line.
- Decipher.DecipherCtrlOpts.ParseCommandLine: `front()` on an empty deque is undefined behaviour in C++. Both cases that reach it are modelled as the outcome `EmptyFront`, not emulated: an empty command line (ShiftCipher/src/ShiftDecipher.cpp:524), and `-i`, `-o` or `-s` given as the last token (ShiftCipher/src/ShiftDecipher.cpp:546, 553, 561).
- Modular.CalcReducedShift: integers are unbounded. The 32-bit `int` of the shift (from `stoi`) is modelled, but overflow inside the reduction loop cannot happen for `int` inputs and is not modelled.
- Decipher.DecipherCtrlOpts.DecipherFileText: `nbytes_file` is a `nat`, not a `size_t` that could wrap.
- Substitution.LinesRead: input and output are the same file only when their paths are equal as strings; other spellings of one path (`./a` and `a`), links, and file systems that refuse to open a file for writing while it is open for reading are not modelled.
- Encipher.CipherOptions.EncipherFileText: `nbytes_file` is a `nat`, not a `size_t` that could wrap.
- Characters are Dafny `char` (Unicode scalar values), not C++ `char` bytes. Non-ASCII input passes through, which is what single bytes outside the alphabets do. `nbytes_file` counts bytes in C++ but characters in the model, so the two counts differ on non-ASCII input.
- Encipher.CipherOptions.ParseOption: the final `else` of `valid_sco_used` is dead code (the letter loop throws first) and is not modelled.
- Encipher.CipherOptions.ScanCombined: the letter loop returns its verdict to the caller rather than setting `opt_number` to the end, which has the same effect on the outer loop.
- `std::stoi` is modelled as base-10 `strtol` in the "C" locale: white space skipped, one sign, the longest digit run, trailing characters ignored, then an `int` range check. Locale-specific white space is not modelled.
