# File-processor dispatcher, modelled in Dafny

A model of the decision logic of `src/refactored.cpp`, a small command-line
program `program <mode> <path>...`. A singleton factory turns the mode string
into one of four file processors: Identity, Encoder, Compressor or Encryptor.
`main` then calls `processFile` on each path in order. Identity does nothing.
The other three open the file. If it cannot be opened they throw a string
naming the path. Otherwise they read the first whitespace-delimited token and
print a line describing what they "would" do with it. The Compressor carries
two parameter strings that move constructors and move assignments swap
between objects. The Encryptor builds a 16-byte key from 15 `rand()` outputs
and clears it in its destructor. `main` stops at the first throw. It returns
1 if every path was processed, and prints "Something wrong" and returns 0
otherwise.

The model is purely functional:

- `Tokens` (tokens.dfy) defines token extraction: `operator>>` into a
  `std::string` in the classic locale.
- `Keys` (keys.dfy) covers the key buffer: generation, its printed form and
  clearing.
- `Processors` (processors.dfy) holds the closed `Processor` datatype,
  `processFile`, the Compressor moves and the destructor.
- `Factory` (factory.dfy) models `createFileProcessor`.
- `Driver` (driver.dfy) models `main` as a fold over the paths.

External inputs become parameters:

- The file system is a `map<Path, string>`. A path missing from the map is
  one that `std::ifstream` cannot open.
- The `rand()` outputs are a `seq<nat>`. `rand()` is an unbounded stream, and the key uses its first 15 outputs. So in "encrypt" mode the factory and `Run` require at least 15 of them.
- Standard output is a sequence of `Line` values. Each `Line` stands for
  one write to `std::cout` and says what that write reports. It is not one
  printed line: see "## Left out".

The exit status is modelled as written: 1 means every path succeeded and 0
means failure. This is the opposite of the usual convention.

Two behaviours of the code are worth noting:

- Clearing a key twice is not a no-op. `clearKey` deletes the key buffer
  without resetting the pointer, so a second clear would free it again. The
  destructor is the only caller of `clearKey` and calls it once.
  `Processors.Destroy` models the destructor together with `clearKey`, and
  it requires a processor whose key has not been cleared yet.
- An unrecognised mode makes the factory return an empty pointer. `main`
  then dereferences that pointer as soon as there is a path. `Run` therefore
  requires a recognised mode or an empty path list. With no paths the program
  returns 1.

## Model

| member | source | states |
|---|---|---|
| Tokens.LeadingSpace | src/refactored.cpp:50-51 | the count of characters skipped before extraction: all are white space, and the next one, if any, is not |
| Tokens.RunLength | src/refactored.cpp:50-51 | the extracted run: no character in it is white space, and it ends at white space or at the end of the content |
| Tokens.FirstToken | src/refactored.cpp:50-51 | the token stored by `inp >> fileContent`: it holds no white space and is the contiguous slice of the content that starts after the leading white space |
| Tokens.DelimitsIff | src/refactored.cpp:50-51 | a pair of bounds delimits the first token (white space before, maximal non-white run, nothing left when empty) if and only if they are the token's own bounds |
| Tokens.TokenOfDelimits | src/refactored.cpp:50-51 | any slice with white space before it and white space or the end after it is the extracted token |
| Tokens.EmptyTokenIff | src/refactored.cpp:50-51 | the token is empty exactly when the content is empty or all white space |
| Tokens.FirstTokenIdempotent | src/refactored.cpp:50-51 | extracting the token from a token gives the token back |
| Tokens.SkipOneSpace | src/refactored.cpp:50-51 | one white-space character at the front of the content does not change the token |
| Tokens.LeadingSpaceIgnored | src/refactored.cpp:50-51 | white space put in front of the content does not change the token |
| Keys.KeyChar | src/refactored.cpp:142 | a key character made from a non-negative `rand()` output r lies in [32, 95] and equals r % 64 + 32 |
| Keys.GenerateKey | src/refactored.cpp:132-144 | the buffer has 16 bytes: byte i for i in 0..14 is made from the i-th `rand()` output, and byte 15 is the terminator 0 |
| Keys.GeneratedKeyPrintable | src/refactored.cpp:141-142 | every key byte before the terminator is printable ASCII in [32, 95] |
| Keys.SameKeyIff | src/refactored.cpp:140-144 | two generated keys are equal if and only if their `rand()` outputs agree modulo 64 at every one of the 15 positions |
| Keys.CString | src/refactored.cpp:173-174 | printing the key as `char*` writes the longest NUL-free prefix of the buffer, stopping at the first NUL |
| Keys.CStringOfTerminated | src/refactored.cpp:173-174 | a buffer with n NUL-free bytes followed by a NUL (or the end) prints as exactly those n bytes |
| Keys.KeyTextIsKeyMaterial | src/refactored.cpp:141-144 | a generated key prints as exactly its 15 key characters |
| Processors.OpenErrorMessage | src/refactored.cpp:48 | the thrown message ends with a closing quote, and parsing it with `QuotedPath` (fixed prefix, quoted path, closing quote) gives back exactly the path |
| Processors.OpenErrorMessageInjective | src/refactored.cpp:48 | two paths give the same thrown message if and only if they are the same path, so a failure identifies its path |
| Processors.Transform | src/refactored.cpp:109-113 | the encode, compress and encrypt transforms each write one report carrying the content they were given. `compressFile` is cited; `encodeFile` (lines 56-57) and `encryptFile` (lines 171-175) are modelled by the same member |
| Processors.ProcessFile | src/refactored.cpp:42-54 | `processFile` fails exactly when the processor is not Identity and the path cannot be opened (the predicate `Succeeds` states this independently). A failure carries the thrown message `OpenErrorMessage(path)` and writes nothing. Identity writes nothing. On an opened file the other variants write one report of the file's first token (same shape at lines 95-107 and 150-162) |
| Processors.IdentityIsInert | src/refactored.cpp:30-31 | Identity never fails and writes nothing, for every path and file system |
| Processors.ReportedContentIsSlice | src/refactored.cpp:103-106 | the content a processor hands to its transform is white-space free and is the file's slice right after its leading white space |
| Processors.ReportCarriesConfiguration | src/refactored.cpp:109-113 | the Encoder writes an encode report, the Compressor writes its own two parameters, and the Encryptor writes its key as printed |
| Processors.MoveAssign | src/refactored.cpp:88-93 | the two field swaps exchange the two objects' parameters as a whole, and the multiset of the four strings is unchanged |
| Processors.MoveConstruct | src/refactored.cpp:81-86 | the new object holds the source's (param1, param2) and the source is left with ("", "") |
| Processors.MoveAssignInvolutive | src/refactored.cpp:88-93 | move-assigning back restores both objects |
| Processors.MovedCompressorBehaviour | src/refactored.cpp:81-86 | a moved-to Compressor processes every file exactly as the original did, and the moved-from one reports empty parameters |
| Processors.Destroy | src/refactored.cpp:147-169 | the destructor of an Encryptor calls `clearKey` once: it writes exactly the key-clearing report and leaves the key cleared, so the processor is no longer usable. Any other processor is returned unchanged and nothing is written |
| Factory.ParseMode | src/refactored.cpp:199-207 | a recognised kind is the one whose mode name equals the given string |
| Factory.ParseModeName | src/refactored.cpp:199-206 | parsing a kind's mode name gives that kind back |
| Factory.ParseModeRecognises | src/refactored.cpp:197-208 | exactly the four mode names are recognised |
| Factory.Construct | src/refactored.cpp:199-206 | each kind builds a processor of that kind, with a usable key for the Encryptor |
| Factory.CreateFileProcessor | src/refactored.cpp:195-209 | the factory returns a processor if and only if the mode is one of the four names. The processor is usable and of the kind the mode names |
| Factory.FactoryTable | src/refactored.cpp:197-208 | "encode" gives Encoder, "identity" gives Identity, "compress" gives Compressor("Hello", "World"), "encrypt" gives an Encryptor with a freshly generated key, and any other mode gives the empty result |
| Factory.CreateOfModeName | src/refactored.cpp:199-206 | the mode name of any kind makes the factory build a processor of that kind |
| Driver.FailFastCons | src/refactored.cpp:227-228 | a successful call on the first path followed by a fail-fast run over the remaining paths is a fail-fast run over all of them |
| Driver.ProcessAll | src/refactored.cpp:225-235 | (as the predicate `FailFast`) the loop calls `processFile` on a prefix of the paths, in order. It ends without failure exactly when every path succeeds, and then has touched all of them. Otherwise it stops at the first failing path: that path is the last one touched and is the one named in the failure. It writes only transform reports, at most one per touched path. The failure is the message naming the last touched path |
| Driver.ProcessAllInOrder | src/refactored.cpp:227-228 | the loop writes exactly the reports of the touched paths, in path order, as given by the reference concatenation `Outputs` |
| Driver.Run | src/refactored.cpp:219-240 | `main` exits with 1 or 0, touches a prefix of `argv[2..]` in order, and touches all of it when it exits with 1 |
| Driver.RunShape | src/refactored.cpp:225-239 | when the factory returns a processor, `main` writes the loop's reports, then "Something wrong" exactly when the loop failed, then the destructor's writes. It exits with 0 exactly when the loop failed |
| Driver.RunExitCode | src/refactored.cpp:225-239 | `main` exits with 1 if and only if the mode is "identity" or every path can be opened. On 0, every path before the last one touched can be opened and the last one cannot |
| Driver.RunOutput | src/refactored.cpp:227-239 | "Something wrong" is written exactly when the exit status is 0. In "encrypt" mode the key-clearing report is written exactly once and as the final write. In other modes it is never written |
| Driver.CompressScenario | src/refactored.cpp:219-240 | "compress" on a file holding "data" writes one report with "data", "Hello" and "World", and exits with 1 |
| Driver.EncodeMissingScenario | src/refactored.cpp:219-240 | "encode" on a path that cannot be opened writes only the diagnostic, and exits with 0 |

## Left out

- Real file and stream I/O: files are a map and printed lines are `Line` values. The exact wording of the printed lines is not modelled.
- `srand(time(NULL))` and `rand()`: the `rand()` outputs are a parameter. Keys being unique across instances cannot be stated without a model of the random source. `Keys.SameKeyIff` says instead that keys differ only where the outputs differ modulo 64.
- Allocation failure: `new char[16]` and the rethrown `bad_alloc`, and `new` of the processors in the factory. Memory is unbounded in the model.
- `delete` used where `delete[]` is required in `clearKey`, and the freed pointer not being reset: only a Present/Cleared key state is modelled.
- The `static_assert` that `FileEncryptor` is nothrow move constructible: it holds only through the implicit shallow copy of the key pointer, which is a double-free hazard. Encryptor moves are not modelled.
- The function-local static singleton `getInstance`: its lazy initialisation has no logic to model, so the factory is a plain function.
- Undefined behaviour in `main`: reading `argv[1]` without checking `argc`, and dereferencing an empty factory result. These are preconditions of `Driver.Run`, not behaviours.
- Processors.Destroy: requires a processor whose key, if any, has not been cleared, because a second clear would delete a dangling pointer. Idempotent clearing is therefore not modelled.
- Line boundaries: "Something wrong" is written without a newline. So on a failing "encrypt" run it shares one printed line with the key-clearing report. The model counts writes, not printed lines.
- Processors.ProcessFile: requires a usable processor, because `processFile` on an Encryptor whose key was freed reads freed memory. `main` never does this.
- src/original.cpp, the pre-refactor version, is not part of this model.
