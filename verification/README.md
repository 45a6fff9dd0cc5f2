# VulkaiNeat core, modelled in Dafny

This project models three parts of VulkaiNeat, a neuro-evolution experiment written in C++:

- **The forward-pass layer and the network shape** (`neural_network.dfy`, module `NeuralNet`).
  A `Layer` is a class with three arrays:
  - `neurons`, the activations;
  - `bias`;
  - `weights`, a row-major matrix in which `weights[i * P + j]` joins neuron `j` of the previous layer (of size `P`) to neuron `i`.

  The model covers:
  - construction and `initWeigth`, which takes one random draw per entry in loop order;
  - the two `compute` overloads, which write only the activations;
  - `mutate`, which changes only the entries whose uniform draw falls below the rate;
  - the `NeuralNetwork` constructor: `2 + nhiddenlayer` distinct layers, no two of which share an array (as a vector of `Layer` values guarantees), with score and fitness starting at -1.

  The sigmoid, `random(a, b)`, `rand()/RAND_MAX` and `normalRandom()` are function parameters. Numbers are `real`.
- **The logger** (`logger.dfy`, module `Logging`). It covers:
  - the ordered log levels, the error codes and the bracketed level tags;
  - the exact text layout of a plain line and of an error line, each with a proved read-back (round trip) when there is no timestamp;
  - the log objects and their constructor defaults;
  - the `Logger`: it drops a log when logging is disabled or the level is below the minimum. Otherwise it writes the line once per terminal handler, hands it to the file handler when file logging is on, and stops the program after a `Fatal` log. The file handler's stream is modelled as written: the stream starts default-constructed, so the first line handed to it reaches no file, and the file is opened on the next line.

  Standard output and the log file are recorded as the text that reaches them. `exit(1)` is recorded as the flag `exited`.
- **Time utilities** (`util.dfy`, module `Util`). It covers:
  - `timestamp`, where the formatted clock reading is an opaque text parameter and the `None` kind gives `""`;
  - the `Chrono` stopwatch as a class over `begin`, `paused` and `elapsed`, with the current clock reading passed in as integer ticks.

  A sequence-of-calls model compares the stopwatch as written with a reference definition of measured running time.

The neural-network source is an unfinished draft that does not compile. The model follows its evident per-element intent:
- `neural_network.cpp` lines 39 and 47 assign a scalar to the whole activation vector. The model writes activation `i`.
- Line 16 sizes the weights with an undeclared `previousLayerSize`. The model uses the previous layer's size, which line 17 passes to `initWeigth`.
- Line 17 calls `previous_layer.size()` on a pointer. The model reads it as `previous_layer->size()`.
- `initWeigth` is declared without a parameter in the header. The model uses the definition's parameter.
- Line 80 passes a layer where a pointer is expected. The model wires the output layer to the layer before it.
- Lines 70-71 (`size = 2 + nhiddenlayer; nhiddenlayer = [size];`) use `nhiddenlayer` both as the count and as the layer vector, and lines 74-80 index that vector. The model reads the count as `params.nhiddenlayer` and the vector as the field `layers`.
- Line 77 builds each hidden layer without a previous layer. The model does what is written: hidden layers have no bias or weights. Only the output layer is wired, and it is wired to the last hidden layer, or to the input layer when there is none.

## Model

| member | source | states |
|---|---|---|
| Util.Timestamp | src/utils/util.cpp:15-22 | the None kind gives the empty string; every other kind gives the formatted clock reading |
| Util.Chrono.constructor | src/utils/util.cpp:48-50 | a new stopwatch is running, has nothing banked, and begins now |
| Util.Chrono.Resume | src/utils/util.cpp:52-60 | no-op when running; when paused, begin becomes now and the flag clears, total unchanged |
| Util.Chrono.Pause | src/utils/util.cpp:62-74 | no-op when paused; when running, banks now - begin and sets paused, begin unchanged |
| Util.Chrono.Restart | src/utils/util.cpp:76-84 | clears paused and the total, and (as written) leaves begin unchanged |
| Util.Chrono.Get | src/utils/util.cpp:86-95 | banks now - begin whether or not paused, sets begin to now, returns the new total |
| Util.GetTwiceSameInstant | src/utils/util.cpp:86-95 | a second get at the same instant changes nothing and reports the same total |
| Util.ElapsedNeverDecreases | src/utils/util.cpp:52-95 | with a non-decreasing clock and no restart, no mix of pause, resume and get lowers the total |
| Util.RestartedAt | src/utils/util.cpp:76-84 | restart as intended: reading zero and running at the restart instant |
| Util.GotIntended | src/utils/util.cpp:86-95 | get as intended: banks the reading at now, keeps the pause flag, and shows the same reading at every later instant |
| Util.IntendedRunMeasures | src/utils/util.cpp:48-95 | with restart and get corrected, any sequence of calls leaves the watch paused exactly when the last pause is not followed by a resume or restart, and reading the reference measured running time |
| Util.GetWhilePausedDoubleCounts | src/utils/util.cpp:62-95 | pause at 5 then get at 5 banks 10 although the watch ran for 5 |
| Util.RestartKeepsOldBegin | src/utils/util.cpp:76-95 | restart at 10 then get at 10 reports 10 although no time passed since the restart |
| Logging.Rank | include/utils/logger.hpp:30-38 | the six levels take the values 0 to 5; Trace is 0 and Fatal is 5 |
| Logging.LevelsStrictlyOrdered | include/utils/logger.hpp:30-38 | Trace < Debug < Info < Warn < Error < Fatal |
| Logging.BelowIsStrictTotalOrder | include/utils/logger.hpp:30-38 | the level comparison used by the filter is irreflexive, transitive, asymmetric and total |
| Logging.LevelToString | src/utils/logger.cpp:13-23 | every tag is 6 or 7 characters, opens with `[`, closes with `]` and has no bracket inside |
| Logging.TagLevelOfTag | src/utils/logger.cpp:13-23 | the level is recovered from its tag at the head of any text |
| Logging.LevelToStringInjective | src/utils/logger.cpp:13-23 | distinct levels have distinct tags |
| Logging.ErrorCode.Value | include/utils/logger.hpp:178-194 | ERR_NONE alone is 0; exactly the four common errors are below 0x1000 |
| Logging.ErrorCodeValuesDistinct | include/utils/logger.hpp:178-194 | distinct error codes have distinct values |
| Logging.Unsigned32 | src/utils/logger.cpp:202-204 | the hex rendering of an int code: the value itself when non-negative, its 32-bit two's complement when negative |
| Logging.Unsigned32Injective | src/utils/logger.cpp:202-204 | distinct int codes print as distinct hex numbers |
| Logging.Hex | src/utils/logger.cpp:202-204 | at least one digit, and only lower-case hex digits |
| Logging.ParseHexOfHex | src/utils/logger.cpp:202-204 | the printed hex digits read back as the number printed |
| Logging.HexHasNoLeadingZero | src/utils/logger.cpp:202-204 | the printed code starts with 0 only when it is zero, and zero prints as the single digit 0 |
| Logging.DefaultConfig | include/utils/logger.hpp:307-311 | default configuration: Partial timestamps, minimum Trace, no file, no colour, enabled |
| Logging.MessageText | src/utils/logger.cpp:57-67 | line = [timestamp + " "] + level tag + " " + body, with the timestamp only when its kind is not None |
| Logging.MessageRoundTrip | src/utils/logger.cpp:57-67 | without a timestamp, the line determines its level and its body |
| Logging.ErrorBody | src/utils/logger.cpp:138-149 | the error text, followed by "\n\t" and the description exactly when the description is non-empty |
| Logging.CodeAndBodyRoundTrip | src/utils/logger.cpp:202-204 | the "[0x" that opens the code is recognised, and what follows it is read as digits, "] " and body |
| Logging.DigitsAndBodyRoundTrip | src/utils/logger.cpp:202-204 | hex digits + "] " + body reads back as the value of the digits and the body |
| Logging.ErrorLineSplitsAtTag | src/utils/logger.cpp:195-206 | without a timestamp, an error line is its level tag followed directly by the bracketed code and the body |
| Logging.ErrorMessageRoundTrip | src/utils/logger.cpp:195-206 | without a timestamp, an error line determines its level, its unsigned code and its body |
| Logging.Log.Empty | src/utils/logger.cpp:79 | StringLog(level = Trace): empty text at the given level |
| Logging.Log.constructor | src/utils/logger.cpp:86 | StringLog(message, level = Trace): that text at that level |
| Logging.Log.FromTemporary | src/utils/logger.cpp:93 | StringLog from an rvalue string has level Trace |
| Logging.Log.MoveString | src/utils/logger.cpp:100 | a moved StringLog keeps the text but has level Trace whatever the source's level; an ErrorLog passed in is sliced to its text |
| Logging.Log.ErrorLog | include/utils/logger.hpp:222-225 | ErrorLog defaults: code ERR_NONE, level Error, empty description |
| Logging.Log.MoveError | src/utils/logger.cpp:170-187 | a moved ErrorLog keeps text, code and description, and has level Trace |
| Logging.Log.SetLevel | src/utils/logger.cpp:37-40 | sets the level, nothing else changes |
| Logging.Log.SetString | src/utils/logger.cpp:119-122 | sets the text, nothing else changes |
| Logging.Log.MessageImpl | src/utils/logger.cpp:138-149 | a StringLog shows its text; an ErrorLog shows its text and its description |
| Logging.Log.Message | src/utils/logger.cpp:195-206 | a StringLog uses the plain layout; an ErrorLog puts "[0x" + hex + "] " right after the tag |
| Logging.Colour | src/utils/logger.cpp:257-267 | each level's colour is an 8-character ANSI sequence starting with ESC [ and ending with m |
| Logging.ColoursDistinct | src/utils/logger.cpp:257-267 | no two levels share a colour |
| Logging.TerminalText | src/utils/logger.cpp:283-292 | the line and a newline, wrapped in the level's colour and the reset code when colour is on; the line itself appears intact right after the colour |
| Logging.Admits | src/utils/logger.cpp:394-398 | a log passes only an enabled logger, and only at or above the minimum level; an enabled logger with minimum Trace passes every level |
| Logging.AdmitsUpwardClosed | src/utils/logger.cpp:397-398 | when a level passes the filter, every higher level passes too |
| Logging.FileRunLosesOnlyFirst | src/utils/logger.cpp:322-328 | as written, a file handler fed any non-empty sequence of lines puts all but the first into the file, in order |
| Logging.IntendedFileRunWritesEveryLine | src/utils/logger.cpp:322-328 | with the file opened on first use, every line reaches the file, in order |
| Logging.FirstFileLineLost | src/utils/logger.cpp:322-328 | the first line handed to the file handler reaches no file, where the corrected handler writes it |
| Logging.FilteredLogWritesNothing | src/utils/logger.cpp:392-398 | disabled, or a level below the minimum: nothing reaches the screen or the file, and the file stream is untouched |
| Logging.AdmittedScreenOutput | src/utils/logger.cpp:400-411 | an admitted log puts one line per terminal handler on the screen, then the fatal notice exactly for a Fatal log |
| Logging.AdmittedLogReachesHandlers | src/utils/logger.cpp:400-404 | an admitted log reaches each terminal handler in turn; the file handler is used only when file logging is on, and the file receives the line exactly when file logging is on and the stream has been used before |
| Logging.Logger.constructor | src/utils/logger.cpp:334-337 | default configuration, one terminal handler, a default-constructed file stream, nothing written |
| Logging.Logger.Dispatch | src/utils/logger.cpp:392-414 | appends exactly the filtered screen output and the file text for the rendered log, moves the file stream to its next state, and stops exactly on an admitted Fatal log |
| Logging.Logger.Deliver | src/utils/logger.cpp:394-411 | the filter, one line per terminal handler, the file line, then the fatal notice and the stop |
| Logging.Logger.WriteToTerminals | src/utils/logger.cpp:400-401 | each terminal handler writes the line once, in turn; nothing else changes |
| Logging.Logger.DispatchMessage | src/utils/logger.cpp:423-432 | logging a string at a level (Trace when none is given) writes what dispatching StringLog(msg, level) writes |
| Logging.Logger.LogEntry | src/utils/logger.cpp:357-366 | the static log(Log) skips a disabled logger and otherwise dispatches |
| Logging.Logger.LogMessage | src/utils/logger.cpp:375-384 | the static log(msg, level), with level Trace when none is given, skips a disabled logger and otherwise dispatches the string |
| Logging.Logger.GetConfig | src/utils/logger.cpp:439-442 | returns the current configuration |
| Logging.Logger.SetConfig | src/utils/logger.cpp:449-452 | replaces the configuration; handlers and written output unchanged |
| Logging.SetThenGet | src/utils/logger.cpp:439-452 | setting the configuration then getting it returns the value set |
| NeuralNet.RowFits | src/neural_network/neural_network.cpp:36-37 | row i of a matrix with p columns ends inside the n * p weight array |
| NeuralNet.IndexInBounds | src/neural_network/neural_network.cpp:27 | for i < n and j < p, i * p + j lies inside the n * p weight array |
| NeuralNet.IndexOrdered | src/neural_network/neural_network.cpp:24-28 | the nested loops visit strictly increasing indices |
| NeuralNet.IndexInjective | src/neural_network/neural_network.cpp:24-28 | no weight slot, and no draw number, is used for two (row, column) pairs |
| NeuralNet.IndexCovers | src/neural_network/neural_network.cpp:24-28 | every slot of the n * p array is the index of some (row, column) pair |
| NeuralNet.BiasAndWeightDrawsDistinct | src/neural_network/neural_network.cpp:23-29 | no bias entry shares its random draw with a weight |
| NeuralNet.WeightDrawNumber | src/neural_network/neural_network.cpp:23-29 | weight (i, j) is preceded in the draw order by i + 1 bias draws and by the weights before it |
| NeuralNet.EveryWeightDrawn | src/neural_network/neural_network.cpp:23-29 | after initWeigth, every weight slot holds its own random(0, 1) draw, the one numbered k + k / p + 1 |
| NeuralNet.RowSumReadsOnlyItsRow | src/neural_network/neural_network.cpp:36-38 | the weighted sum for neuron i reads only row i of the weights |
| NeuralNet.ActivationReadsOnlyItsRow | src/neural_network/neural_network.cpp:32-41 | activation i depends only on bias i, row i of the weights and the previous activations |
| NeuralNet.Layer.Size | include/neural_network/neural_network.hpp:50-52 | the number of activations held |
| NeuralNet.Layer.At | include/neural_network/neural_network.hpp:28-30 | reads activation index and changes nothing |
| NeuralNet.Layer.SetAt | include/neural_network/neural_network.hpp:32-34 | writes activation index only; bias, weights and every other activation unchanged |
| NeuralNet.Layer.constructor | src/neural_network/neural_network.cpp:11-20 | n zero activations; without a previous layer no bias and no weights; with one, n biases and n * P weights filled by initWeigth |
| NeuralNet.Layer.InitWeights | src/neural_network/neural_network.cpp:23-29 | bias i gets random(-1, 1) and weight (i, j) gets random(0, 1), each its own draw, in loop order |
| NeuralNet.Layer.Compute | src/neural_network/neural_network.cpp:32-41 | activation i becomes sigmoid(bias[i] + sum over j of weights[i * P + j] * previous[j]); bias, weights and the previous layer unchanged |
| NeuralNet.Layer.WeightedInput | src/neural_network/neural_network.cpp:35-38 | the inner loop computes bias[i] plus row i of the weights applied to the previous activations |
| NeuralNet.Layer.ComputeInputs | src/neural_network/neural_network.cpp:44-50 | activation i becomes sigmoid(inputs[i]) for inputs at least size() long; bias and weights unchanged |
| NeuralNet.Layer.Mutate | src/neural_network/neural_network.cpp:54-61 | an entry becomes its old value plus 0.05 times its normal draw exactly when the rate is above its uniform draw, and keeps its old value otherwise; lengths and activations unchanged |
| NeuralNet.Perturbed | src/neural_network/neural_network.cpp:56 | an entry gains 0.05 times its normal draw when the rate exceeds its uniform draw, and is unchanged otherwise |
| NeuralNet.MutateEntries | src/neural_network/neural_network.cpp:58-59 | every entry of the array is perturbed with its own pair of draws, and no other array changes |
| NeuralNet.AppendLayer | src/neural_network/neural_network.cpp:74-80 | a newly built layer of the given size, unwired or filled by initWeigth from the previous layer, lands after the layers already built and shares no object or array with them |
| NeuralNet.BuildLayers | src/neural_network/neural_network.cpp:70-80 | 2 + nhiddenlayer distinct fresh layers with separate storage: input of ninput, unwired hidden layers of nhidden, output of noutput wired to the layer before |
| NeuralNet.NeuralNetwork.constructor | src/neural_network/neural_network.cpp:67-85 | 2 + nhiddenlayer distinct fresh layers with separate storage: input of ninput, unwired hidden layers of nhidden, output of noutput wired to the layer before; score and fitness -1 |

## Left out

- Population, crossover, `output()`, `pickOne`, `calculateFitness`, `evolve` and `bestElement` have no bodies in the repository, so the model does not invent them.
- `NeuralNetwork::compute` (neural_network.cpp:87-94) uses an undeclared `i` and indexes past the last layer, so it has no coherent behaviour to state.
- The score and fitness accessors and the layer `operator[]` of `NeuralNetwork` are declared without bodies.
- The copy and move constructors and assignments of `Layer` and `NeuralNetwork`, and of the logger classes beyond the two move constructors, are C++ ownership mechanics.
- `weights()` and `bias()` hand out references for in-place writes. The model exposes the arrays as public fields. Resizing through those references is not modelled.
- The sigmoid, `random(a, b)`, `rand()/RAND_MAX`, `normalRandom()` and `MUTATION_RATE` are defined outside the repository. They are parameters, and arithmetic is on `real` rather than `double`.
- NeuralNet.Layer.Mutate: each entry's uniform and normal draws are numbered by the entry (biases first), not consumed from one shared generator. So the model does not say how the two draws of successive entries interleave.
- NeuralNet.Layer.constructor: random draws are numbered from 0 for each layer. The generator's state shared across layers is not modelled.
- Logging.Logger.Dispatch: every handler writes the line rendered with one clock reading. The source reads the clock again in each handler, so with a timestamp two handlers may differ in that text.
- `FileLogHandler::open` and its failure path (logger.cpp:294-306) are not modelled. Opening always succeeds and the file is always writable. The file's name, built from a Full timestamp, is not modelled.
- Logging.Logger.Dispatch: the write to the unopened stream is modelled as writing nothing and leaving the stream failed. Its effect on the later `std::endl` flush is not modelled.
- The ANSI colour sequences are constants. The singleton, `unique_ptr` ownership, and the handlers' `config` pointer get/set (logger.cpp:226-249) are C++ mechanics.
- The Delta, Partial and Full branches of `timestamp` read the system clock and format it. Their text is the parameter `clockText`.
- Chrono durations are integer ticks rather than `duration<double>`. `operator<<` and `operator std::string` (util.cpp:97-106) only print the result of `get()`.
- The commented-out prototype at the end of neural_network.hpp, `util.h` (declarations and a `duration_cast` wrapper) and `main.cpp` (demo glue) are not part of this model.

## Findings

| source | as written | input that shows it | evidently intended | confidence | as-written member | corrected member |
|---|---|---|---|---|---|---|
| src/utils/util.cpp:86-95 | `get()` adds `now - m_begin` to the total even when the watch is paused | a new watch (begin 0), `pause()` at 5, then `get()` at 5 returns 10 | a paused watch reports its banked total, 5 | not executed | Util.GetWhilePausedDoubleCounts | Util.GotIntended |
| src/utils/util.cpp:76-84 | `restart()` zeroes the total but leaves `m_begin` where it was | a new watch (begin 0), `restart()` at 10, then `get()` at 10 returns 10 | a restarted watch counts from the restart, so it reports 0 | not executed | Util.RestartKeepsOldBegin | Util.RestartedAt |
| src/utils/logger.cpp:322-328 | `FileLogHandler::log` opens the file only when `m_of.good()` is false, and a default-constructed `ofstream` is good but not open | file logging on, then a first admitted log "a": it goes to the unopened stream and the file never holds it | open the file when it is not open yet, so every line reaches it | not executed | Logging.FirstFileLineLost | Logging.IntendedFileRunWritesEveryLine |
