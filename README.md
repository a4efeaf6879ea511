# GL_warp2mp4: a verified model of its decision and bookkeeping logic

GL_warp2mp4 re-encodes a video. It reads a video file, draws each frame as a textured quad
with OpenGL, reads the frame back and writes it to a new video. Outside the rendering calls,
the program works out a few settings and keeps a few counters. This project models those
parts in Dafny and proves what they do:

- **`OutputName`**: the output file name. The input path is cut at its last `'.'`, or kept
  whole when it has none, and `"F.avi"` is appended.
- **`FourCC`**: two steps of the codec handling. The input's codec integer is split into the
  four bytes of `EXT`, lowest byte first, followed by a NUL. The output codec is then chosen:
  the configured four characters, or the input's codec when those characters spell the
  sentinel `NULL`.
- **`PixelPack`**: the pixel-pack parameters for reading frames back into `dst`. The
  alignment is 4 when 4 divides the row stride and 1 otherwise. The row length is the stride
  divided by the element size.
- **`IniConfig`**: reading `GL_warp2mp4.ini`. The file is a fixed positional layout of ten
  words, and each `infile >> x` follows the C++ stream-extraction rules for the type of `x`:
  - a failed stream stays failed and stores nothing;
  - an `int` read takes a sign and digits and leaves the rest of the word in the stream;
  - it stores 0 when there are no digits, and INT_MAX or INT_MIN when the value overflows;
  - a `char[]` read stores the word followed by a NUL.

  The built-in defaults are 1920, 1080, `XVID` and `EP_xyuv_1920.map`. They stay in force
  when the file is missing, and settings that were never reached keep them too.
- **`Sequencer`**: the GLUT callbacks `OnIdle` and `OnKeyPress`. They are modelled as a class
  over the globals `fps`, `framenum`, `t_start` and `t_end`, specified by pure step
  functions. An empty frame or ESC ends the run with exit code 0. Each frame advances both
  counters. Once five seconds have passed since the last report, `fps / 5` is printed and the
  window restarts.
- **`Launch`**: what `main` decides between reading the configuration and entering the loop.
  - No chosen file exits with 1.
  - An input that will not open exits with -1, and so does an output that will not open.
  - Otherwise the loop starts on the derived name and the selected codec, with fresh counters.

The dialog, the decoder, the encoder and the clock are not modelled. Their answers come in
as parameters.

## Model

| member | source | states |
|---|---|---|
| OutputName.FindLastOf | GL_warp2mp4.cpp:258 | The result is the index of the last occurrence of the character, with no occurrence after it. None means the character does not occur anywhere (`npos`). |
| OutputName.Substr0 | GL_warp2mp4.cpp:259 | `npos` keeps the whole string. A count within the length keeps exactly that many leading characters. |
| OutputName.DeriveName | GL_warp2mp4.cpp:258-259 | The name ends in "F.avi" and what comes before is a prefix of the path. That prefix is shorter than the path iff the path contains a '.'. When shorter, it stops exactly at a '.' with no '.' after it. |
| OutputName.PathSplitsAtLastDot | GL_warp2mp4.cpp:258-259 | The path is the kept prefix followed by the removed extension. The extension is empty, or a '.' followed by characters that are not '.'. |
| OutputName.NameDiffersFromPath | GL_warp2mp4.cpp:258-259 | The output name never equals the input path. |
| OutputName.CutAtLastDot | GL_warp2mp4.cpp:258-259 | When position k holds a '.' and no '.' follows it, the name is the path up to k followed by "F.avi". |
| OutputName.DeriveTwice | GL_warp2mp4.cpp:258-259 | Deriving a name from a derived name cuts it at the '.' before "avi". The result is the old name less ".avi", followed by "F.avi". |
| OutputName.DotInDirectoryCutsDirectory | GL_warp2mp4.cpp:258-259 | A '.' in a directory name is the last '.' when the file name has none, so the path is cut inside the directory name ("clips.v1/take" gives "clipsF.avi"). |
| FourCC.Bits | GL_warp2mp4.cpp:262 | The unsigned pattern of the `int` codec lies in [0, 2^32) and agrees with it modulo 2^32. |
| FourCC.FromBits | GL_warp2mp4.cpp:260 | It inverts Bits: the `int` with a given 32-bit pattern has that pattern. |
| FourCC.Unpack | GL_warp2mp4.cpp:262 | `EXT` has five cells. The four codec bytes are each below 256 and the last cell is 0. |
| FourCC.UnpackRecombines | GL_warp2mp4.cpp:260-262 | The four bytes of `EXT`, recombined lowest byte first, give the codec integer modulo 2^32. |
| FourCC.RecombineUnpacks | GL_warp2mp4.cpp:260-262 | Any four bytes packed into a 32-bit value unpack to the same four bytes, in order. |
| FourCC.SelectCodec | GL_warp2mp4.cpp:267-274 | The input codec `ex` is passed on iff the first four cells are exactly "NULL". Otherwise the tag is those four characters, in order. |
| FourCC.DefaultSelectsXvid | GL_warp2mp4.cpp:193-197 | The default cells "XVID" select the Xvid tag, whatever the input codec. |
| PixelPack.PackAlignment | GL_warp2mp4.cpp:290 | The alignment is 1 or 4 and always divides the stride. It is 4 whenever 4 divides the stride. |
| PixelPack.RowLength | GL_warp2mp4.cpp:292 | The row length is the number of whole elements in the stride: n·size ≤ step < (n+1)·size. |
| PixelPack.DstPackParameters | GL_warp2mp4.cpp:287-292 | For the three-byte-per-pixel `dst`, the row length equals the output width. Alignment 4 is chosen iff the width is a multiple of 4. |
| PixelPack.DefaultWidthAligned | GL_warp2mp4.cpp:287-292 | The default width 1920 gets 4-byte alignment and 1920-pixel rows. |
| IniConfig.DigitRun | GL_warp2mp4.cpp:212 | The run stays inside the word and holds only digits. The character after it, if any, is not a digit. |
| IniConfig.ExtractWord | GL_warp2mp4.cpp:208-210 | On a good stream with words left, the read takes the next word and the stream stays good. Otherwise the read fails and the target keeps its value. |
| IniConfig.ExtractInt | GL_warp2mp4.cpp:212-214 | A failed or exhausted stream fails and keeps the target's value. A whole-number word stores its value, consumes the word and keeps the stream good. |
| IniConfig.ExtractIntCases | GL_warp2mp4.cpp:212-214 | On a good stream with a word left: without digits after the optional sign, 0 is stored and the stream fails. A value above INT_MAX stores INT_MAX and fails, and one below INT_MIN stores INT_MIN and fails. A value in range is stored and the stream stays good. The characters after the digits, if any, become the next word. |
| IniConfig.StoreWord | GL_warp2mp4.cpp:216 | Each of the four cells holds the word's character there, the NUL right after the word, or the old content beyond it. |
| IniConfig.ExtractChars | GL_warp2mp4.cpp:216 | On a good stream with words left, the next word and its NUL are stored and the word is consumed. Otherwise the read fails and the buffer is unchanged. |
| IniConfig.ReadSlot | GL_warp2mp4.cpp:208-218 | Each read of the layout changes only its own target: a comment word changes no setting. On a failed stream a read changes nothing and the stream stays failed. |
| IniConfig.InterpretFrames | GL_warp2mp4.cpp:205-219 | Reading a sequence of slots leaves every setting whose slot does not occur in it at its old value. |
| IniConfig.FailedStreamKeepsConfig | GL_warp2mp4.cpp:208-218 | Once the stream has failed, no later read changes any setting. |
| IniConfig.CommentsSkipped | GL_warp2mp4.cpp:208-211 | The three leading comment words are consumed without changing any setting. |
| IniConfig.EndOfWords | GL_warp2mp4.cpp:208-218 | Once the words run out, the next read fails and no setting changes for the rest of the layout, from any slot on. |
| IniConfig.ShortFileKeepsDefaults | GL_warp2mp4.cpp:192-218 | A file of at most three words leaves every default in force. |
| IniConfig.NonNumericWidthZeroes | GL_warp2mp4.cpp:212-218 | A width word without digits stores 0 in the width. Height, code and mesh path keep their defaults. |
| IniConfig.WellFormedLayout | GL_warp2mp4.cpp:205-219 | Given at least ten words, whole numbers at 3 and 5, and a word 7 of fewer than 40 characters (it fits `outputfourccstr` with its NUL): word 3 is the width, word 5 the height, word 7 goes into the code cells and word 9 is the mesh path. All other words are ignored. |
| IniConfig.NumberPrefixLeavesRest | GL_warp2mp4.cpp:212 | When digits are followed by other characters, the number is stored and those characters stay as the next word. |
| IniConfig.TrailingCharsShiftLayout | GL_warp2mp4.cpp:212-214 | When the width's digits are followed by other characters and word 4 has no digits: those characters are read as the next comment, the height read meets word 4 and stores 0, and the rest keeps its defaults. |
| IniConfig.TrailingCharsShiftWords | GL_warp2mp4.cpp:212-218 | When the width's digits are followed by other characters and word 4 is a whole number, every later word shifts by one slot. The width is the digits' value, word 4 is the height, word 6 goes into the code cells and word 8 is the mesh path. |
| IniConfig.SkipHeader | GL_warp2mp4.cpp:208-210 | The three header reads leave the layout's result unchanged. On a good stream of three words or more, they drop exactly three words. |
| IniConfig.ReadSettings | GL_warp2mp4.cpp:212-218 | The seven reads after the header give exactly what the layout from word 3 on prescribes. |
| IniConfig.ReadIni | GL_warp2mp4.cpp:190-223 | The settings are the layout's reading of the file, or the defaults when it does not open. A file of at most three words keeps the defaults. A well-formed file (see WellFormedLayout) gives words 3, 5, 7 and 9. |
| Sequencer.CDiv | GL_warp2mp4.cpp:171 | C division truncates toward zero: the remainder `a - q·b` has the sign of `a` and is smaller than `b` in magnitude. |
| Sequencer.CDivTruncatesNegative | GL_warp2mp4.cpp:171 | In C, -7 / 5 is -1, where Euclidean (and floor) division gives -2. |
| Sequencer.Start | GL_warp2mp4.cpp:284-285 | The loop starts Running, with `fps` and `framenum` at 0 and `t_start` at the clock reading. |
| Sequencer.Idle | GL_warp2mp4.cpp:143-177 | An empty frame terminates with 0 before any counter changes. A frame prints the pre-increment frame number and advances it by one. Five seconds or more since the last report prints `(fps+1)/5` and resets `fps` to 0 and `t_start` to the second reading. Otherwise `fps` grows by one and `t_start` stays. |
| Sequencer.KeyPress | GL_warp2mp4.cpp:129-140 | ESC terminates a running loop with exit code 0. Any other key, or any key after termination, changes nothing. |
| Sequencer.Run | GL_warp2mp4.cpp:143-177 | A run of n callbacks prints n reports. |
| Sequencer.StartIsValid | GL_warp2mp4.cpp:284-285 | The starting counters are consistent. |
| Sequencer.RunPreservesValid | GL_warp2mp4.cpp:129-177 | Every sequence of callbacks keeps 0 ≤ `fps` ≤ `framenum`, and exit code 0 as the only exit. |
| Sequencer.TerminationIsFinal | GL_warp2mp4.cpp:129-153 | After termination no callback changes the counters or prints anything. |
| Sequencer.RunAppend | GL_warp2mp4.cpp:143-177 | Running two sequences of callbacks one after the other is running their concatenation. |
| Sequencer.FramesAdvance | GL_warp2mp4.cpp:167-176 | K frames advance `framenum` by exactly K and print frame numbers in order, each one the pre-increment value. |
| Sequencer.EndOfStream | GL_warp2mp4.cpp:149-154 | K frames followed by the end of the video count exactly K frames, print "Finished writing" and terminate with 0. Nothing happens after that. |
| Sequencer.QuietFramesCount | GL_warp2mp4.cpp:167-176 | Frames arriving within five seconds of the last report only add to `fps`. `t_start` is unchanged and `framenum` advances by their number. |
| Sequencer.FpsReport | GL_warp2mp4.cpp:167-174 | After K quiet frames, the first frame five or more seconds later prints `(fps+K+1)/5` with C division. It then resets `fps` to 0 and moves `t_start` to the second reading. |
| Sequencer.SlowFirstFrameReportsZero | GL_warp2mp4.cpp:171 | A first frame five or more seconds after the start prints frame 0 with fps 1/5 = 0. |
| Sequencer.OutputSequencer.constructor | GL_warp2mp4.cpp:284-285 | The globals hold the starting counters. |
| Sequencer.OutputSequencer.OnIdle | GL_warp2mp4.cpp:143-177 | The globals' update and the printed line are exactly the idle step's. |
| Sequencer.OutputSequencer.OnKeyPress | GL_warp2mp4.cpp:129-140 | The globals' update and the printed line are exactly the key-press step's. |
| Launch.Launch | GL_warp2mp4.cpp:236-285 | The failures are checked in order, each with its own exit code: no file gives 1, an unopened input -1, an unopened output -1. The outcome is an exit iff the writer does not open, and every exit code is non-zero. A loop writes to the derived name with the selected codec, keeps `EXT`, the configured size and the starting counters. |
| Launch.NoIniWritesXvid | GL_warp2mp4.cpp:267-271 | Without an ini file the output codec is Xvid. |
| Launch.NullWordKeepsInputCodec | GL_warp2mp4.cpp:267-274 | For a well-formed file, the input codec is kept iff word 7 begins with "NULL". A shorter word such as "NUL" puts its NUL terminator into the four cells. |
| Launch.RunEndsWithZero | GL_warp2mp4.cpp:236-285 | When input and output open and the video has K frames, the process ends with exit code 0 after counting exactly K frames. |

## Left out

- OpenGL and GLUT are not modelled: `InitGL`, `OnDisplay`, `OnReshape`, the texture upload, `glReadPixels`, window creation and the main loop (GL_warp2mp4.cpp:77-127, 294-302). These are foreign rendering calls. Only the two pack parameters they receive are modelled.
- OpenCV is not modelled: the `VideoCapture`/`VideoWriter` I/O, `cvtColor`, `flip` and `gluBuild2DMipmaps`. Frames appear only as "empty or not". Whether the input or the output opens is a parameter.
- The file dialog and the message box are not modelled. The dialog's answer is an `Option<string>` parameter.
- Console output and the escape codes are not modelled. Each callback's printed line is a `Report` value.
- The print of `outputfourccstr` (GL_warp2mp4.cpp:225) is not modelled. On the default path only four of its cells are set, so the string has no terminator.
- The `argv[3][0]` read (GL_warp2mp4.cpp:199) is not modelled. Its result is never used.
- `time(NULL)` is not modelled. Its readings are parameters: `OnIdle` takes two, and `main` takes one for `t_start`.
- The mesh loader, the mesh rasterizer and the double-buffered upload are not modelled. GL_warp2mp4.h:25-44 only declares them and no body is present. The code here reads a mesh path but never opens it. `OnDisplay` draws one full-screen quad, so no failure of a missing mesh file is modelled.
- The header's camera and colour structs and its floating-point globals are not modelled. They are unused.
- FourCC.Bits: the double-to-`int` conversion of `CAP_PROP_FOURCC` (GL_warp2mp4.cpp:260) is not modelled. The codec integer is taken as a given `Int32`.
- FourCC.Unpack: the cells of `EXT` are `char`, which may be signed. The model keeps the byte values 0-255 that the masks produce.
- FourCC.SelectCodec: `VideoWriter::fourcc` packing is not visible in the source. The chosen codec stays the four characters, as a `Tag`.
- Sequencer.Idle: `fps` and `t_start`/`t_end` are C `int` and `framenum` is `unsigned long long`. The model uses unbounded integers, so wrap-around after 2^31 or 2^64 is not modelled.
- IniConfig.StoreWord: only the first four cells of the 40-char `outputfourccstr` are modelled. The overflow a word of 40 or more characters causes is not modelled.
- IniConfig.Token: the file is given as its sequence of whitespace-separated words. Splitting the characters at whitespace is not modelled, and the type does not exclude whitespace inside a word.
- IniConfig.StoreWord: each `char` of a word stands for one byte of the file. A character that the file encodes in several bytes, such as "é" in UTF-8, fills several cells in the program, not one as in the model. No encoding is modelled.
- IniConfig.ExtractInt: digits are read in the "C" locale without thousands separators. After a failed read the words left in the stream are not modelled exactly (when a word has no digits, the model drops the whole word). This has no effect: every later read on a failed stream does nothing.
- `dst.create` with a zero or negative ini width or height is not modelled; that is an OpenCV error. PixelPack.DstStep assumes a continuous `dst` whose stride is three bytes per column.
- Sequencer.OutputSequencer: `exit(0)` ends the process. In the model, the class moves to `Terminated(0)` and later calls change nothing.
- The loop does not load a calibration mesh or handle mesh-load failures. What this model follows is the code, which has no mesh loading.
