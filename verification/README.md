# A verified model of the game client's decoding, networking and layout code

The project models four parts of the repository and proves what they are for.

**Images** (`Bits`, `BitStream`, `Huffman`, `HuffmanTable`, `InflateSpec`, `Inflate`, `Deflate`, `PngFilter`,
`PngUnfilter`, `Adam7`, `PngReader`, `PngFiles`, `Checksums`, `PngWriter`, `RoundTrip`). `client/stb_image.h` reads PNG
files: a DEFLATE decoder with a bit buffer and table-driven canonical Huffman codes, unfiltering in the output bytes,
de-interlacing, and a chunk loop. `cgi/vsx-generate-qr.c` writes PNG files with one stored DEFLATE block. DEFLATE is RFC
1951, zlib RFC 1950, PNG RFC 2083. `InflateSpec` says what a byte string means as a recursive function of a bit position,
without a bit buffer or tables; the class `Inflate.ZBuf`, with the source's bit buffer, tables and growing output array, is
proved to compute it. `Deflate` writes streams the way RFC 1951 lays them out, with lengths, distances, the order of the code
length alphabet and the fixed codes computed by rule and not taken from the tables, and its streams are proved to decode to
what was written. The unfilterer is proved against filters defined the way RFC 2083 defines them, and those are proved
invertible. `PngFiles` builds whole files of any size, number of components and interlacing, and proves what the reader makes
of them; `RoundTrip` does so for the files of the writer.

**The connection** (`Proto`, `Utf8`, `Framing`, `ConnState`, `ConnInvariant`, `ConnOps`, `ConnStop`, `ConnPoll`, `ConnOutput`,
`ConnInput`, `ConnReset`, `ConnMoves`, `ConnRequests`, `ConnTime`, `ConnTale`, `ConnLife`, `ConnWire`, `Connection`).
`client/vsx-connection.c` is a state machine driven by calls, wake-ups, a clock and the results of system calls. `ConnState`
gives every transition as a function of an abstract state that ends in a log of everything told to the outside (polls and
events announced, sockets opened, bytes read, items queued, bytes passed to `write`). The class `Connection.Conn` has the
source's fields and its two fixed buffers, and each of its methods is proved to do to them what the transition says. The
properties of whole runs, for any sequence of operations and answers, are lemmas about `ConnState`: most of them compare the
log with the calls that were made, or with the log itself. `ConnWire` reads the bytes of commands and messages field by field.

**Glyph textures** (`BspTree`, `Bsp`, `FontTexture`). `client/vsx-bsp.c` carves rectangles out of a region with a binary space
partition kept in a growing array; `client/vsx-font.c` keeps a list of textures with one partition each. The array is proved
to represent a tree, and the properties are about the tree's leaves in preorder.

**Game state** (`EventQueue`, `TileIndex`). `client/vsx-game-state.c` passes events from a worker thread to the main thread
through a queue with recycled nodes, and keeps tiles both by number and in the order of their last update. The queue is a
transition system whose steps are the sections under the mutex and the handling of one event; steps interleave freely.

## Where the code and its description differ

- `vsx_connection_set_running(connection, false)` on a connection whose reconnect was scheduled by an error does not cancel
  that reconnect. `ConnStop.StaysStopped` gives the exact condition under which a stopped connection stays stopped, and
  `ConnStop.StopIgnored` a run, from a new connection, that reopens a socket after the stop. The connection then runs again
  without an announcement, which `ConnLife.LifeTold` takes into account.
- The search for the end of the handshake does not look again at a byte that broke a partial match. `Framing.MatchFindsFirst`
  gives the exact condition under which the first CR LF CR LF is found (an even number of carriage returns directly before
  it), and `Framing.MatchMisses` an input on which it is not.
- De-interlacing with an added alpha component advances through the data by the size of the output, not of the data, and
  so does the unsigned count of what is left. `Adam7.AlphaOnlyOnePixel` shows that the picture comes out exactly for images
  of one pixel; any other is refused (`Adam7.AlphaRefused`) or makes the decoder read behind its data
  (`Adam7.AlphaThreeRows`, `Adam7.AlphaReadsPast`), because the count wraps.
- The poll announced to the listeners is not always what the connection waits for: a wake-up that tells that connecting has
  finished, or lets the keep-alive expire, and then ends in a read or a write that would block, or before the end of the
  handshake, does not announce the change. `ConnPoll.PollCurrent` says that nothing else goes wrong, and `ConnPoll.PollStale`
  gives a run.
- Clipping a message that is too long looks for the start of a character without stopping at the start of the text.
  `Proto.ClipInside` says exactly when it stays inside, and `Proto.ClipLeaves` gives a text on which it does not; on valid
  UTF-8 it does (`Proto.ClipValid`).
- A length code of 0x7f is followed by 32 bits, and the second byte of a frame is taken as a length without masking. The
  model follows the code, not RFC 6455, section 5.2.
- The trailing Adler-32 of a zlib stream and the CRC of a chunk are skipped by the reader.

## Model

| member | source | states |
|---|---|---|
| `Bits.BitReverse16Correct` | client/stb_image.h:2015-2022 | The four masked swaps reverse the low 16 bits of any number. |
| `Bits.BitReverseCorrect` | client/stb_image.h:2024-2030 | Reversing 16 bits and shifting reverses exactly the low `bits` bits, for every width up to 16. |
| `Bits.RevRev` | client/stb_image.h:2024-2030 | Reversal is its own inverse on the low bits. |
| `Huffman.CompleteIffKraft` | client/stb_image.h:2048-2060 | The per-length check of the table builder holds for every length exactly when the Kraft sum is at most one. |
| `Huffman.PrefixFree` | client/stb_image.h:2051-2071 | Two symbols whose canonical codes (RFC 1951, section 3.2.2) both begin the same bits are the same symbol. |
| `Huffman.SomeMatch` | client/stb_image.h:2138-2143 | Bits whose first s bits are below the end of length s begin with some code of at most s bits. |
| `Huffman.IndexDistinct` | client/stb_image.h:2064-2067 | Different symbols get different places in the `size` and `value` tables. |
| `HuffmanTable.FastStep` | client/stb_image.h:2068-2074 | Entering a symbol at every index whose low bits are its reversed code extends the correct part of the fast table by that symbol. |
| `HuffmanTable.Table.Build` | client/stb_image.h:2032-2077 | For code lengths no more frequent than their size allows: returns true exactly when the Kraft sum is at most one, and then all tables are those of the code. |
| `HuffmanTable.Table.CountSizes` | client/stb_image.h:2037-2042 | Counts how often each length occurs, ignoring length 0. |
| `HuffmanTable.Table.AssignCodes` | client/stb_image.h:2045-2060 | Succeeds exactly when the codes of every length fit, and fills in first codes, first symbols and preshifted limits. |
| `HuffmanTable.Table.FillTables` | client/stb_image.h:2061-2077 | Afterwards every symbol is at its place and the fast table is right for all 512 indices. |
| `HuffmanTable.Table.AssignSymbol` | client/stb_image.h:2062-2076 | Enters one symbol without disturbing those entered before. |
| `HuffmanTable.Table.FillFast` | client/stb_image.h:2068-2074 | The stride loop writes exactly the indices whose bits begin with the code of the symbol. |
| `BitStream.WindowOr` | client/stb_image.h:2103-2110 | Putting later stream bits above buffered ones gives the longer run of stream bits. |
| `Inflate.BufferByte` | client/stb_image.h:2107-2108 | The next byte, shifted above n buffered bits, extends the buffer by the next eight bits of the stream. |
| `Inflate.Preshifted` | client/stb_image.h:2058-2058 | Comparing 16 reversed bits with a preshifted limit decides whether the first s bits are below the end of length s. |
| `Inflate.SlowMatch` | client/stb_image.h:2138-2145 | The first length that accepts the bits is that of the matching symbol, and the computed index is the symbol's place. |
| `Inflate.NoMatch` | client/stb_image.h:2141-2141 | When no length accepts the bits, no symbol matches. |
| `Inflate.RepeatsEarlier` | client/stb_image.h:2201-2203 | Every byte of a match equals the byte `dist` places before it, also where the match overlaps itself. |
| `Inflate.FixedCodesOk` | client/stb_image.h:2297-2307 | The fixed code lengths pass both checks of the table builder. |
| `Inflate.ZBuf.constructor` | client/stb_image.h:2348-2356 | A decoder starts at bit 0 of its input with no output. |
| `Inflate.ZBuf.Get8` | client/stb_image.h:2097-2101 | Reads the next byte, or zero without moving once the input has ended. |
| `Inflate.ZBuf.FillBits` | client/stb_image.h:2103-2110 | Buffers more than 24 and at most 32 bits without changing the position in the bit stream. |
| `Inflate.ZBuf.Receive` | client/stb_image.h:2112-2120 | Returns the next n bits of the stream, first bit lowest, and consumes exactly those. |
| `Inflate.ZBuf.HuffmanDecode` | client/stb_image.h:2122-2147 | Returns the one symbol whose canonical code comes next and consumes exactly its length; -1, consuming nothing, when there is none. |
| `Inflate.ZBuf.Lookup` | client/stb_image.h:2126-2147 | The fast table and the search by length together find the matching symbol if there is one. |
| `Inflate.ZBuf.SlowLookup` | client/stb_image.h:2134-2146 | When no short code matches, the search over longer lengths decides the rest. |
| `Inflate.ZBuf.Expand` | client/stb_image.h:2149-2164 | Makes room by doubling, keeping the output; refuses exactly for a fixed buffer. |
| `Inflate.ZBuf.CopyMatch` | client/stb_image.h:2201-2203 | The byte-by-byte copy appends the last `dist` bytes repeated to the wanted length. |
| `Inflate.ZBuf.ParseHuffmanBlock` | client/stb_image.h:2180-2206 | On settled input: succeeds exactly when the block is valid and its bytes fit, with exactly the specified output and position. |
| `Inflate.ZBuf.ParseSymbol` | client/stb_image.h:2183-2205 | One round of the loop leaves the meaning of the rest of the block unchanged. |
| `Inflate.ZBuf.ParseMatch` | client/stb_image.h:2189-2204 | A length symbol, its distance and the copy, with an invalid distance refused. |
| `Inflate.ZBuf.ParseCodeLengths` | client/stb_image.h:2229-2248 | Decodes the run-length coded code lengths of RFC 1951, section 3.2.7, and refuses a run that overshoots. |
| `Inflate.ZBuf.ParseRun` | client/stb_image.h:2230-2247 | One symbol of that list leaves the meaning of the rest unchanged. |
| `Inflate.ZBuf.ParseAlphabet` | client/stb_image.h:2219-2223 | Reads the code length alphabet in its permuted order. |
| `Inflate.ZBuf.ComputeHuffmanCodes` | client/stb_image.h:2208-2252 | Succeeds exactly when the header of the dynamic block is valid, and leaves both tables built for its codes. |
| `Inflate.ZBuf.ParseStoredHeader` | client/stb_image.h:2254-2272 | From any bit position, takes the four header bytes at the next byte boundary, first from the bit buffer and then from the input. |
| `Inflate.ZBuf.ParseStored` | client/stb_image.h:2254-2281 | For every input: copies exactly the stored bytes, or fails when the length check, the input or the room fails. |
| `Inflate.ZBuf.ParseHeader` | client/stb_image.h:2283-2294 | Accepts exactly a zlib header of method 8 with good check bits and no dictionary. |
| `Inflate.ZBuf.InitDefaults` | client/stb_image.h:2297-2307 | The tables of fixed lengths are those of RFC 1951, section 3.2.6. |
| `Inflate.ZBuf.ParseBlock` | client/stb_image.h:2316-2333 | One block of any of the three kinds does what the specification says; the fourth kind is refused. |
| `Inflate.ZBuf.ParseZlib` | client/stb_image.h:2309-2336 | For every stream the standard accepts: terminates with exactly the bytes it stands for, or fails because they do not fit a fixed buffer; for every stream refused in a way the decoder reports: fails. |
| `Deflate.LengthTable` | client/stb_image.h:2166-2172 | The law of RFC 1951, section 3.2.5: lengths start at 3, code z + 1 starts where the values of code z end, the extra bits are 0 up to code 7 and (z - 4) / 4 from there, and the last code stands for 258 alone. |
| `Deflate.DistanceTable` | client/stb_image.h:2174-2178 | The same for distances: from 1, without gaps, with extra bits 0 for the first two codes and (z - 2) / 2 after them. |
| `Deflate.LengthRead` | client/stb_image.h:2191-2194 | Every length from 3 to 258, written as the symbol and extra bits computed for it by arithmetic, is read back. |
| `Deflate.DistanceRead` | client/stb_image.h:2195-2198 | Every distance from 1 to 32768, written in the same way, is read back. |
| `Deflate.CopyRepeats` | client/stb_image.h:2201-2203 | Copying one byte after the other from `dist` back gives the repeated bytes that a match stands for. |
| `Deflate.DataRead` | client/stb_image.h:2180-2206 | For any two usable codes and any literals and matches, the bits of their codes and extra bits decode to what they stand for, up to the end symbol. |
| `Deflate.FarRefused` | client/stb_image.h:2199-2199 | A match that reaches back before the first byte is refused, whatever comes before it. |
| `Deflate.OrderIs` | client/stb_image.h:2210-2210 | The order of the code length alphabet: 16, 17, 18, 0, and then the sizes alternating outward from 8. |
| `Deflate.FixedSymbol` | client/stb_image.h:2301-2304 | The codes that follow from the fixed lengths are those of the table in RFC 1951, section 3.2.6, for all 288 symbols. |
| `Deflate.FixedDistance` | client/stb_image.h:2306-2306 | Fixed distance codes are the five bits of the symbol. |
| `Deflate.RunsRead` | client/stb_image.h:2229-2248 | Any list of sizes and runs (repeat 3 to 6 times in two bits, zeros 3 to 10 times in three, 11 to 138 times in seven), written in a usable code length code, unrolls to the lengths it stands for. |
| `Deflate.OvershootRefused` | client/stb_image.h:2248-2248 | A run that goes on behind the last length is refused. |
| `Deflate.SizesRead` | client/stb_image.h:2220-2224 | The sizes written in that order reach the symbols they belong to; those not written are zero. |
| `Deflate.TablesRead` | client/stb_image.h:2208-2252 | The header written for any two lists of code lengths, in any runs and any code length code, is read back as these lists, which are then checked. |
| `Deflate.OversubscribedRefused` | client/stb_image.h:2249-2250 | A header whose literal or distance lengths have a Kraft sum above one is refused. |
| `Deflate.StoredRead` | client/stb_image.h:2254-2281 | Up to 65535 bytes behind their length and its complement, at the next byte boundary from any bit position, are read back. |
| `Deflate.ComplementRequired` | client/stb_image.h:2271-2273 | Four header bytes are refused for their length exactly when the two numbers, low byte first, do not add up to 65535. |
| `Deflate.KindRefused` | client/stb_image.h:2321-2322 | The fourth block type is refused, final or not. |
| `Deflate.PartsRead` | client/stb_image.h:2315-2334 | Any number of blocks, each stored, with fixed codes or with its own codes, and only the last one marked, decode to the meaning of all of them. |
| `Deflate.HeaderIs` | client/stb_image.h:2283-2294 | The two bytes accepted are those of RFC 1950, section 2.2: method 8, no dictionary, and together a multiple of 31. |
| `Deflate.InflateStream` | client/stb_image.h:2309-2336 | Whole zlib streams: for every list of blocks of the three kinds, and any bytes behind them, inflating the packed bits gives exactly what the blocks stand for. |
| `PngFilter.Paeth` | client/stb_image.h:2476-2485 | The predictor is one of its three arguments and is nearest to a + b - c; of those equally near, the left comes before the one above, and that before the one above and to the left. |
| `PngFilter.FilterTakes` | client/stb_image.h:2529-2541 | What each filter type takes off a byte: nothing, the left neighbour, the one above, the mean of both rounded down, or the Paeth predictor, with zeros outside the row. |
| `PngFilter.UnfilterFilter` | client/stb_image.h:2529-2541 | Undoing a filter from left to right restores the row, for each of the filters and any row above. |
| `PngFilter.DecodeEncodeRows` | client/stb_image.h:2504-2560 | Decoding the filtered bytes restores the image, whatever filter each row uses. |
| `PngUnfilter.SwitchIsRecon` | client/stb_image.h:2471-2556 | Every case of the switches, with the first-row variants and the first-pixel shortcuts, undoes the standard's filter for missing neighbours taken as zero. |
| `PngUnfilter.AlphaLayout` | client/stb_image.h:2523-2547 | In the output bytes with an added alpha, component k of pixel q is byte (n + 1) q + k and holds byte n q + k of the bytes without one; byte (n + 1) q + n is 255. |
| `PngUnfilter.RestorePixel` | client/stb_image.h:2512-2522 | The loop over the components writes the bytes that the switch gives, reading `cur[k - m]`, `prior[k]` and `prior[k - m]` in the output buffer, and nothing else. |
| `PngUnfilter.NextPixel` | client/stb_image.h:2528-2559 | The bytes restored at `cur` from the bytes one pixel and one stride before them are the next pixel of the unfiltered row, followed by 255 where an alpha is added. |
| `PngUnfilter.PutPixels` | client/stb_image.h:2524-2559 | The loop over the pixels of a scanline writes the bytes of the unfiltered row behind the rows above and nothing else. |
| `PngUnfilter.RestoreRows` | client/stb_image.h:2504-2560 | The loop over the rows ends well exactly when every filter type is there and known, and the buffer then holds the bytes of the decoded image; otherwise it is refused, or the loop reads behind the data, whichever comes first. |
| `PngUnfilter.CreateImageRaw` | client/stb_image.h:2490-2562 | With enough data (exactly enough for a whole image) by the count it is given, the rows decide the ending; with a picture, the buffer is the bytes of its pixels, with or without alpha. |
| `PngUnfilter.EnoughData` | client/stb_image.h:2496-2510 | Where the data really is there, the loop over the rows never reads behind it, and its picture is that of the standard. |
| `PngUnfilter.ShortData` | client/stb_image.h:2504-2510 | Where it is not, the loop never ends with a picture. |
| `Adam7.PixelInPass` | client/stb_image.h:2574-2589 | Every pixel of an image of any size belongs to its pass, at a place inside that pass. |
| `Adam7.PassInImage` | client/stb_image.h:2580-2589 | Every pixel of every pass lands inside the image, on a pixel of that pass only. |
| `Adam7.PassesRefine` | client/stb_image.h:2574-2577 | The first passes together hold exactly the pixels of a grid whose columns and rows are halved by turns, starting at every eighth. |
| `Adam7.PassInOrder` | client/stb_image.h:2580-2589 | Within a pass, columns and rows keep their order. |
| `Adam7.SpreadPass` | client/stb_image.h:2587-2590 | Copying one pass, `out_n` bytes for each pixel, puts its pixels at the byte offsets where they are wanted and keeps those of the earlier passes. |
| `Adam7.Deinterlace` | client/stb_image.h:2571-2598 | For any data, with or without an added alpha: the walk, whose position and 32-bit remainder both advance by the size of the output, ends as its passes do, and a completed result has every pixel from the right place of the right pass. |
| `Adam7.InterlaceRestores` | client/stb_image.h:2571-2598 | De-interlacing an interlaced image restores it, for every size and any filter on each row of each pass. |
| `Adam7.AlphaOnlyOnePixel` | client/stb_image.h:2571-2598 | For every interlaced image, whatever its filter types: with an added alpha, decoding gives the picture, or any picture at all, if and only if the image is one pixel. |
| `Adam7.AlphaRefused` | client/stb_image.h:2500-2502 | Two gray pixels next to each other are refused. |
| `Adam7.AlphaThreeRows` | client/stb_image.h:2592-2593 | For every gray image of 2 by 3 pixels: the walk reads behind the 11 bytes when byte 3, which holds a pixel, is below 5, and refuses the image otherwise. |
| `Adam7.AlphaReadsPast` | client/stb_image.h:2592-2593 | An image of that size on which it reads behind its data. |
| `Adam7.OnlyAlphaOverruns` | client/stb_image.h:2490-2599 | For any data at all, valid or not, only an interlaced image with an added alpha makes the decoder read behind its data. |
| `Adam7.CreateImage` | client/stb_image.h:2564-2599 | Plain or interlaced, with or without alpha: a picture exactly when the data stands for one, whose bytes are then in the buffer; otherwise a refusal or a read behind the data. |
| `PngReader.Png.Get8` | client/stb_image.h:780-790 | The byte at the position, zero past the end. |
| `PngReader.Png.Get32be` | client/stb_image.h:840-850 | The big-endian number at the position. |
| `PngReader.Png.Skip` | client/stb_image.h:803-814 | Skipping may run past the end. |
| `PngReader.Png.GetN` | client/stb_image.h:816-838 | All n bytes, or failure when fewer are left. |
| `PngReader.Png.CheckPngHeader` | client/stb_image.h:2450-2457 | Succeeds exactly on a file that starts with the signature. |
| `PngReader.Png.ParseHeader` | client/stb_image.h:2746-2758 | Succeeds exactly on header fields the decoder supports, and stores the size, components and interlacing they give. |
| `PngReader.Png.Inflated` | client/stb_image.h:2369-2384 | Succeeds exactly when the collected data inflates, and returns what it stands for. |
| `PngReader.Png.Complete` | client/stb_image.h:2820-2847 | Ends with a picture exactly when the data inflates to an image, whose bytes are then in the buffer; otherwise with a refusal or a read behind the data. |
| `PngReader.Png.ParseChunk` | client/stb_image.h:2734-2868 | One chunk leaves what the rest of the file leads to unchanged, or ends with exactly that outcome. |
| `PngReader.Png.ParseFile` | client/stb_image.h:2718-2869 | Succeeds exactly when the file stands for a picture, and produces its size, alpha and pixels. |
| `PngFiles.QuotientsFit` | client/stb_image.h:2757-2757 | The two divisions of the size check decide exactly whether width times components times height is at most 2^30. |
| `PngFiles.HeaderRead` | client/stb_image.h:2746-2758 | For any header fields: with width before height, 8 bits, one of the colour types 0, 4, 2, 6 for 1 to 4 components and an accepted size, exactly these values are taken; nothing else is, and only colour type 3 is a palette. |
| `PngFiles.FileRead` | client/stb_image.h:2725-2868 | A header, any image data chunks and skippable chunks in any order, and an end chunk: what is read is the image data joined in order. |
| `PngFiles.PlainFile` | client/stb_image.h:2718-2869 | For every image of accepted size, square or not, with 1 to 4 components, any filter types, a zlib stream of any blocks cut into any chunks, and any number of components asked for: reading the file gives exactly the image, with an alpha added exactly for 2 asked of 1 or 4 asked of 3. |
| `PngFiles.InterlacedFile` | client/stb_image.h:2718-2869 | The same for interlaced files; with an added alpha only the image of one pixel is read, and all others are refused or overrun. |
| `PngFiles.HeaderRefused` | client/stb_image.h:2742-2758 | A file with any other header is refused, whatever follows. |
| `PngFiles.ChunkRefused` | client/stb_image.h:2851-2864 | A critical chunk that is not known ends in refusal, after any number of good chunks. |
| `PngFiles.CutRefused` | client/stb_image.h:2815-2815 | So does a file that ends inside image data. |
| `PngFiles.HeaderFirst` | client/stb_image.h:2803-2852 | A file whose first chunk is not a header is refused. |
| `PngFiles.SignatureRequired` | client/stb_image.h:2450-2457 | A file without the signature is refused. |
| `Checksums.MakeEntry` | cgi/make-crc-table.py:36-44 | Eight rounds of the shift register without input. |
| `Checksums.MakeTable` | cgi/make-crc-table.py:35-46 | The 256 entries. |
| `Checksums.Generator` | cgi/make-crc-table.py:36-44 | The constant of the register is the generator of RFC 2083, section 3.4, written with its fourteen exponents below 32. |
| `Checksums.TableStep` | cgi/vsx-generate-qr.c:98-99 | One table look-up equals feeding the eight bits of a byte to the register of RFC 2083, section 3.4. |
| `Checksums.RegisterConcat` | cgi/vsx-generate-qr.c:129-137 | However the data is cut into calls, the register ends the same. |
| `Checksums.CrcFits` | cgi/vsx-generate-qr.c:155-164 | The checksum fits 32 bits. |
| `Checksums.Residue` | cgi/vsx-generate-qr.c:155-164 | The residue law: any bytes followed by their own CRC, low byte first, leave the register in one state that does not depend on them; the CRC of nothing is zero. |
| `Checksums.UpdateCrc` | cgi/vsx-generate-qr.c:93-102 | The table-driven loop computes the bit-by-bit register. |
| `Checksums.AdlerAppend` | cgi/vsx-generate-qr.c:112-115 | The closed form of RFC 1950, section 8.2, grows by one byte as the two running sums do. |
| `Checksums.AdlerWraps` | cgi/vsx-generate-qr.c:104-118 | The sums wrap at 65521 and not at 2^16. |
| `Checksums.UpdateFischer` | cgi/vsx-generate-qr.c:104-118 | Continuing from the sums of what came before gives the Adler-32 of the whole, so summing per scanline is sound. |
| `PngWriter.ImageBytesFit` | cgi/vsx-generate-qr.c:61-82 | The image data fits the 16-bit length of one stored block, for every side below 256. |
| `PngWriter.ChunkWriter.WriteDataNoCrc` | cgi/vsx-generate-qr.c:120-127 | Appends bytes to the file. |
| `PngWriter.ChunkWriter.WriteData` | cgi/vsx-generate-qr.c:129-137 | Appends bytes and takes them into the checksum. |
| `PngWriter.ChunkWriter.StartChunk` | cgi/vsx-generate-qr.c:139-153 | Writes length and type, with the checksum started at the type. |
| `PngWriter.ChunkWriter.EndChunk` | cgi/vsx-generate-qr.c:155-164 | Whatever was written since the start, the chunk is now complete with the checksum of type and data. |
| `PngWriter.ChunkWriter.WriteIhdr` | cgi/vsx-generate-qr.c:166-175 | Appends the header chunk. |
| `PngWriter.ChunkWriter.WriteScanlines` | cgi/vsx-generate-qr.c:189-198 | Appends every scanline after a filter byte and returns the Adler-32 of all of it. |
| `PngWriter.ChunkWriter.WriteIdat` | cgi/vsx-generate-qr.c:177-204 | Appends a data chunk with one zlib stream of one stored block holding the image. |
| `PngWriter.ChunkWriter.WriteIend` | cgi/vsx-generate-qr.c:206-211 | Appends the end chunk. |
| `PngWriter.WritePng` | cgi/vsx-generate-qr.c:213-227 | The whole array is the specified file: the writer ends exactly at the declared size. |
| `PngWriter.ChunkChecks` | cgi/vsx-generate-qr.c:139-164 | In every chunk written, the length is the first number, and type, data and checksum read backwards pass the residue law. |
| `PngWriter.StreamChecks` | cgi/vsx-generate-qr.c:177-204 | The length in the stored block and the Adler-32 at the end of the stream are those of the bytes between them. |
| `RoundTrip.InflateStored` | cgi/vsx-generate-qr.c:177-204 | The zlib stream written for any image decodes to its scanlines. |
| `RoundTrip.ImageOfScanlines` | client/stb_image.h:2490-2562 | The scanlines written for any image unfilter to its rows, also when an alpha is added. |
| `RoundTrip.ReadWritten` | cgi/vsx-generate-qr.c:213-227 | For every image with 1 to 255 pixels a side and every number of components asked for, reading the written file gives back exactly the image, whose bytes are those the reader leaves in its buffer. |
| `BspTree.LeavesTile` | client/vsx-bsp.c:115-148 | Every unit square of the region lies in exactly one leaf, and none outside it in any. |
| `BspTree.LeavesDisjoint` | client/vsx-bsp.c:115-148 | No two leaves share a unit square. |
| `BspTree.AreaConserved` | client/vsx-bsp.c:115-148 | Full area plus empty area is the area of the region. |
| `BspTree.FirstFit` | client/vsx-bsp.c:169-235 | The first empty leaf in preorder that is big enough, or none. |
| `BspTree.NothingFits` | client/vsx-bsp.c:211-212 | A part that is too small holds no leaf that is big enough, so skipping it loses nothing. |
| `Bsp.CarvingKeeps` | client/vsx-bsp.c:115-148 | Carving a rectangle out of a leaf keeps the tree, its encoding in the array, and the rectangles handed out in bounds and pairwise disjoint. |
| `Bsp.Allocator.constructor` | client/vsx-bsp.c:99-113 | A new region has one empty space that is all of it, and an empty one of height zero below it. |
| `Bsp.Allocator.AddNode` | client/vsx-bsp.c:62-80 | Appends a node with two empty children. |
| `Bsp.Allocator.AddSplit` | client/vsx-bsp.c:115-148 | Puts the carved subtree into the array at the child reference, in at most two new nodes, changing no other node. |
| `Bsp.Allocator.FindLeaf` | client/vsx-bsp.c:157-237 | The walk with an explicit stack terminates at the first usable leaf in preorder, or reports exactly that there is none. |
| `Bsp.Allocator.Place` | client/vsx-bsp.c:214-224 | Carves the rectangle out of the leaf found: that leaf is replaced by the full rectangle and empty remainders, every other leaf stays. |
| `Bsp.Allocator.Add` | client/vsx-bsp.c:150-238 | First fit: the first empty space in order that is wide and high enough gives its corner, and is replaced by the rectangle, what is below it, and the column to its right; returns false, changing nothing, exactly when there is none; all rectangles ever returned stay in bounds and disjoint and their areas add up to the full area. |
| `FontTexture.TexelToCoordinate` | client/vsx-font.c:80-83 | For texels of the texture the rounded coordinate fits 16 bits. |
| `FontTexture.RoundedBoxesApart` | client/vsx-font.c:80-83 | Boxes that share no texel stay apart in the rounded coordinates and keep a positive size. |
| `FontTexture.Library.BoxInRange` | client/vsx-font.c:225-285 | Every glyph box ever placed has a positive size in the coordinates stored for it, and they fit 16 bits. |
| `FontTexture.Library.SharedTextureDisjoint` | client/vsx-font.c:225-285 | Any two glyph boxes on the same texture are disjoint in the coordinates stored for them, along the axis along which they are in texels, and both fit 16 bits. |
| `FontTexture.Library.ReserveTextureSpace` | client/vsx-font.c:225-285 | The first texture with room gets the glyph; a new one is made exactly when none has room, and the glyph is at its corner. The entry holds s1 and s2 for x and x + width, t1 and t2 for y and y + height, each times 65535 / 1024 and rounded. |
| `FontTexture.Library.TryTextures` | client/vsx-font.c:234-240 | The loop stops at the first texture with room. |
| `FontTexture.Library.ReserveInNewTexture` | client/vsx-font.c:242-281 | A new texture is put at the front, and a glyph that is not larger than it is placed at its corner. |
| `Proto.ClipValid` | client/vsx-connection.c:1898-1906 | On a valid message the loop stays inside the text, and clipping leaves valid UTF-8. |
| `Proto.ClipLongest` | client/vsx-connection.c:1896-1906 | Of a valid message as much is left as can be: no valid beginning of at most 1000 bytes is longer. |
| `Proto.ClipLength` | client/vsx-connection.c:1896-1906 | The loop finds where to clip, or leaves the text. |
| `Proto.ClipInside` | client/vsx-connection.c:1904-1905 | For every text that is too long: the loop stays inside it if and only if one of its first 1001 bytes is not a continuation byte. |
| `Proto.ClipLeaves` | client/vsx-connection.c:1904-1905 | A text of 1001 bytes on which it does not. |
| `Utf8.ValidIsUtf8` | common/vsx-utf8.c:65-111 | A byte string passes the check exactly when it is the encoding of some Unicode scalar values, each spelled the way `vsx_utf8_encode` does. |
| `Framing.MatchSound` | client/vsx-connection.c:983-1005 | Only a CR LF CR LF is ever taken for the end of the handshake. |
| `Framing.MatchFindsFirst` | client/vsx-connection.c:991-999 | The first CR LF CR LF is found exactly when an even number of carriage returns comes directly before it. |
| `Framing.MatchMisses` | client/vsx-connection.c:992-994 | A carriage return before the terminator makes the search miss it. |
| `Framing.ParseConcat` | client/vsx-connection.c:1007-1044 | Parsing a stream equals parsing a part and then what was kept together with the rest. |
| `Framing.FeedConcat` | client/vsx-connection.c:1046-1117 | Two reads give the payloads, the state and the first error of one read of both. |
| `Framing.SplitsAgree` | client/vsx-connection.c:1046-1117 | However the bytes are split into reads, payloads and first error are those of the whole stream. |
| `Framing.RestSmall` | client/vsx-connection.c:1021-1031 | What is kept after parsing is shorter than the buffer. |
| `Framing.RoomToRead` | client/vsx-connection.c:1049-1052 | After every read there is room for at least one more byte, so a read never has size zero. |
| `Framing.ParseFrame` | common/vsx-proto.c:76-98 | A frame written by the shared writer is parsed back, for every acceptable payload. |
| `Framing.ParseFrames` | common/vsx-proto.c:109-165 | A stream of such frames gives back its payloads. |
| `Framing.TooLongRefused` | client/test-client-connection.c:166-169 | A frame announcing 1025 to 65535 bytes is refused as soon as its header is there. |
| `Framing.FrameLayout` | common/vsx-proto.c:76-98 | A frame is 0x82, the length in one byte or behind 126 in two, the higher first, and the payload. |
| `Framing.LengthLayout` | client/vsx-connection.c:936-975 | A length below 126 takes one byte, 126 two more and 127 four more, the highest first. |
| `Framing.OthersSkipped` | client/vsx-connection.c:1029-1041 | A frame of any other kind is passed over. |
| `Connection.Conn.GetPayloadLength` | client/vsx-connection.c:936-975 | Length and start of the payload once enough of the frame is in the buffer. |
| `Connection.Conn.FindWsTerminator` | client/vsx-connection.c:983-1005 | Runs the matcher over the buffer and says where it stopped. |
| `Connection.Conn.ProcessMessage` | client/vsx-connection.c:820-893 | Accepts exactly well-formed payloads and delivers them. |
| `Connection.Conn.ProcessFrames` | client/vsx-connection.c:1007-1044 | Delivers the payloads of the frames in the buffer in order and stops at the first error. |
| `Connection.Conn.HandleRead` | client/vsx-connection.c:1046-1117 | A read of any result has the effect of the transition, in the fixed buffer. |
| `Connection.Conn.WriteOneItem` | client/vsx-connection.c:1407-1455 | Writes the most urgent waiting item if it fits; otherwise nothing changes. |
| `Connection.Conn.FillOutputBuffer` | client/vsx-connection.c:1457-1465 | Queues items until nothing is waiting or the next one does not fit, within the buffer. |
| `Connection.Conn.HandleWrite` | client/vsx-connection.c:1467-1501 | Fills the buffer, keeps what the system did not take, and renews the keep-alive time. |
| `Connection.Conn.UpdatePoll` | client/vsx-connection.c:1598-1684 | Announces a poll change exactly when it changed, and shuts down the sending half once. |
| `Connection.Conn.SetReconnectTimestamp` | client/vsx-connection.c:895-914 | The delay doubles up to the maximum. |
| `Connection.Conn.ReportError` | client/vsx-connection.c:916-934 | Closes the socket and schedules a reconnect, at once after a stable connection. |
| `Connection.Conn.TryReconnect` | client/vsx-connection.c:1503-1564 | Starts a fresh stream on a new socket, or reports the error. |
| `Connection.Conn.WakeUp` | client/vsx-connection.c:1566-1596 | A wake-up with any poll result and any answers is the transition, and the invariant is kept. |
| `Connection.Conn.StartConnecting` | client/vsx-connection.c:1706-1726 | Schedules the first attempt, or waits for the configuration. |
| `Connection.Conn.SetRunning` | client/vsx-connection.c:1728-1782 | Starting and stopping from every running state. |
| `Connection.Conn.Reset` | client/vsx-connection.c:1818-1851 | Clears what the source clears and nothing else. |
| `Connection.Conn.constructor` | client/vsx-connection.c:1853-1871 | A new connection is a cleared blank one and satisfies the invariant. |
| `Connection.Conn.SetPersonId` | client/vsx-connection.c:1957-1968 | Taken once; may start the connection. |
| `Connection.Conn.SetPlayerName` | client/vsx-connection.c:1970-1980 | Taken once; may start the connection. |
| `Connection.Conn.SetRoom` | client/vsx-connection.c:1982-1992 | Taken once; may start the connection. |
| `Connection.Conn.SetConversationId` | client/vsx-connection.c:1994-2005 | Taken once; may start the connection. |
| `Connection.Conn.SetAddress` | client/vsx-connection.c:2007-2018 | Taken once; may start the connection. |
| `Connection.Conn.SetTyping` | client/vsx-connection.c:226-234 | Asks for the typing state to be sent. |
| `Connection.Conn.SquashMove` | client/vsx-connection.c:252-270 | The search through the pending moves replaces the one of the same tile or appends. |
| `Connection.Conn.RequestMove` | client/vsx-connection.c:252-273 | Asks for a tile to be moved. |
| `Connection.Conn.RequestNTiles` | client/vsx-connection.c:275-283 | Asks for the number of tiles to be sent. |
| `Connection.Conn.RequestLanguage` | client/vsx-connection.c:285-304 | Asks for the language to be sent. |
| `Connection.Conn.SendMessage` | client/vsx-connection.c:1892-1921 | Appends the clipped message to those waiting. |
| `ConnInvariant.InvStep` | client/vsx-connection.c:1566-1596 | Every call and every wake-up, with any answers of the system and clock, keeps the invariant. |
| `ConnInvariant.ConfigurationFirst` | client/vsx-connection.c:1212-1218 | In every reachable state an open socket or scheduled reconnect means a complete configuration, and waiting for it means neither; so a header always has a person or a player name. |
| `ConnPoll.PollCurrent` | client/vsx-connection.c:1566-1596 | For every reachable state whose announced poll is current, and every call: it is current afterwards if and only if the call is not a wake-up on an open socket that confirms connecting or lets the keep-alive expire, and ends in a blocked read, an unfinished handshake or a blocked write. |
| `ConnPoll.CurrentRun` | client/vsx-connection.c:1664-1684 | In every run without such a wake-up the listeners always know what to poll for. |
| `ConnPoll.PollStale` | client/vsx-connection.c:1473-1487 | A run from a new connection after which they do not: connecting has finished, and the write blocks. |
| `ConnStop.StaysStopped` | client/vsx-connection.c:1738-1763 | A stopped connection never opens a socket again before it is started exactly when no reconnect was scheduled, or it was only waiting for one. |
| `ConnStop.StopIgnored` | client/vsx-connection.c:1743-1749 | A run in which a running connection is stopped and a socket is opened afterwards. |
| `ConnStop.ResetStays` | client/vsx-connection.c:1818-1851 | After a reset the connection does stay stopped. |
| `ConnOutput.EverySocketStream` | client/vsx-connection.c:1467-1501 | On every socket ever opened, at every write, the bytes passed continue one WebSocket request, then exactly one header command, then whole commands in the order they were queued; the buffer never overflows. |
| `ConnOutput.NextIsMostUrgent` | client/vsx-connection.c:1413-1425 | What is written next is waiting and nothing more urgent is. |
| `ConnOutput.NoOvertaking` | client/vsx-connection.c:1457-1465 | Filling the buffer queues items by urgency and stops only when nothing waits or the most urgent does not fit. |
| `ConnOutput.SquashPlace` | client/vsx-connection.c:259-270 | Changing a pending move in place has the effect of one more move at the end, on any board. |
| `ConnOutput.MovesSquashed` | client/vsx-connection.c:252-273 | In every run without a reset, the moves queued and then those pending have the effect of all moves requested; pending tile numbers are distinct. |
| `ConnRequests.SaidInOrder` | client/vsx-connection.c:1350-1383 | In every run without a reset, the texts of all messages queued, followed by those still waiting, are the clipped texts of all messages asked for, each once and in order. |
| `ConnRequests.RequestAccount` | client/vsx-connection.c:1423-1455 | For every call and each of the other requests (number of tiles, language, leave, shout, turn): asking for it makes it owed, and one that is owed is queued once or stays owed. |
| `ConnRequests.NothingMadeUp` | client/vsx-connection.c:1423-1455 | In every run nothing is queued more often than it was asked for. |
| `ConnRequests.ValuesKept` | client/vsx-connection.c:275-304 | In every run the number of tiles, the language and the typing state are the ones given last since a reset, a language cut to seven bytes. |
| `ConnRequests.QueuedAsAsked` | client/vsx-connection.c:1248-1276 | Whatever is queued during a call of any run carries the value given last. |
| `ConnRequests.TypingTold` | client/vsx-connection.c:1371-1400 | In every run without a reset, what the connection takes the server to know of typing is what was queued last, where a message ends typing. |
| `ConnTale.TaleTold` | client/vsx-connection.c:1197-1210 | In every run without a reset: a header that takes up a game again says exactly how many messages were passed on before; the connection is finished exactly when the server has said so; and the sending half of a socket is shut down at most once, after that. |
| `ConnTale.NextHeads` | client/vsx-connection.c:1197-1234 | The header queued next follows from the configuration: a known person before a conversation, before a room, before a private game in the language set. |
| `ConnTale.HeadersFollow` | client/vsx-connection.c:1197-1234 | In every run the configuration is what the calls and the server gave first since a reset, and every header queued carries its values. |
| `ConnLife.LifeTold` | client/vsx-connection.c:1503-1596 | In every run the log says which socket is held and whether the connection is running: a socket is opened only when there is none, until an error is reported or running changes; only changes of running are announced, where a socket opened after a stop counts as running; and bytes and messages pass only while a socket is held. |
| `ConnTime.Backoff` | client/vsx-connection.c:895-914 | Attempts that fail one after the other before the connection was stable: after n of them the next is scheduled 0, 16, 32, 64, ... and at most 512 seconds after the last failure. |
| `ConnTime.ErrorWaits` | client/vsx-connection.c:916-934 | Any error closes the socket and schedules the reconnect: at once when the player id came at least 15 seconds ago, after the wait of the count of failures otherwise. |
| `ConnTime.StableAtOnce` | client/vsx-connection.c:916-929 | A connection that was stable is tried again at once, and the waits start from the beginning. |
| `ConnTime.StartIsFresh` | client/vsx-connection.c:1706-1726 | A connection that is started with its configuration complete is tried at once, and the waits start from the beginning. |
| `ConnTime.NotBefore` | client/vsx-connection.c:1566-1578 | A wake-up before the time of the reconnect changes nothing. |
| `ConnTime.StreamEnds` | client/vsx-connection.c:1075-1096 | The end of the stream stops a connection whose game is over, and is an error for every other. |
| `ConnTime.WriteRenews` | client/vsx-connection.c:1467-1501 | A write puts the keep-alive off by 150 seconds. |
| `ConnTime.KeepAliveOnce` | client/vsx-connection.c:1580-1587 | The keep-alive is asked for when its time has come, once, and then polled for. |
| `ConnTime.PendingMeans` | client/vsx-connection.c:1598-1617 | Data is pending exactly when the buffer is not empty or there is a next item. |
| `ConnTime.PollMeans` | client/vsx-connection.c:1598-1662 | What is polled for on an open socket: reading exactly when running, writing exactly when connecting or when there is something to write and the sending half is open, and the time of the keep-alive. |
| `ConnTime.PollBetween` | client/vsx-connection.c:1598-1662 | Between sockets, only the time of the reconnect. |
| `ConnWire.CommandRead` | common/vsx-proto.h:48-61 | Reading the bytes of any command field by field, with the codes of the protocol, gives back the command and its values; numbers come back modulo their width. |
| `ConnWire.ItemFits` | client/vsx-connection.c:1407-1465 | Every item but a header with long names fits into the empty output buffer. |
| `ConnWire.ProperAccepted` | client/vsx-connection.c:820-893 | Every message of the protocol, with any values, is accepted. |
| `ConnWire.AcceptedProper` | client/vsx-connection.c:820-893 | Every payload of a known type that is accepted is such a message, and its fields spell it again. |
| `ConnWire.MessageMeans` | client/vsx-connection.c:306-818 | What each message changes: the person and the time of the player id, the count of messages, synced, finished; and which ones are passed on. |
| `ConnWire.UnknownIgnored` | client/vsx-connection.c:820-893 | A message of an unknown type changes nothing. |
| `ConnInput.EverySocketHeard` | client/vsx-connection.c:1046-1117 | On every socket the messages passed on are those of the whole stream read so far, however it was cut into reads, and the connection is synced exactly when the stream has said so. |
| `ConnReset.SameStep` | client/vsx-connection.c:1566-1684 | States that differ only in what cannot matter still do so after any step, and tell the same. |
| `ConnReset.ResetLikeNew` | client/vsx-connection.c:1818-1871 | After a reset, whatever happens, the same sockets, bytes, polls and events follow as for a new connection with the same address, up to `synced` flags. |
| `ConnReset.ConnectedAlike` | client/vsx-connection.c:1543-1549 | From the first connection on the `synced` flags are the same too. |
| `EventQueue.InvNext` | client/vsx-game-state.c:626-720 | After every step of either thread a flush is scheduled exactly when the queue is not empty, and every node is in exactly one of the three lists, once. |
| `EventQueue.ExactlyOnceInOrder` | client/vsx-game-state.c:626-720 | Under every interleaving each event has been handled once, or discarded by a reset, or is pending, in the order of emission. |
| `EventQueue.NothingLost` | client/vsx-game-state.c:626-720 | Without a reset, the events handled and then those pending are all that were emitted, in order. |
| `EventQueue.Queue.EventCb` | client/vsx-game-state.c:673-720 | The worker's section under the mutex is the emitting step. |
| `EventQueue.Queue.DetachQueue` | client/vsx-game-state.c:631-640 | The flush takes the whole queue. |
| `EventQueue.Queue.HandleQueued` | client/vsx-game-state.c:642-649 | One event is handled outside the mutex. |
| `EventQueue.Queue.ReturnNodes` | client/vsx-game-state.c:651-655 | The nodes go back to the free list. |
| `EventQueue.Queue.FreeEventQueue` | client/vsx-game-state.c:915-929 | A reset discards what is queued and cancels the flush. |
| `TileIndex.LastOnlyAppend` | client/vsx-game-state.c:462-498 | A new event takes its tile out of the list of last events and goes to the end. |
| `TileIndex.LastOnlyDistinct` | client/vsx-game-state.c:462-498 | Each tile number seen is in the list at most once, with the `synced` flag cleared. |
| `TileIndex.LastOnlyFaithful` | client/vsx-game-state.c:462-498 | Every entry of the list has the number, player, place and letter of the last event of the log with its number, and every number in the log is in the list. |
| `TileIndex.SeenIsHighest` | client/vsx-game-state.c:131-144 | The length of the index is one more than the highest tile number seen. |
| `TileIndex.Tiles.EnsureNTiles` | client/vsx-game-state.c:131-144 | The index grows with empty entries and never shrinks. |
| `TileIndex.Tiles.GetTileByIndex` | client/vsx-game-state.c:147-168 | Finds the tile of a number or makes exactly one. |
| `TileIndex.Tiles.HandleTileChanged` | client/vsx-game-state.c:462-498 | After any tile event the list is the event log with only the last event of each tile, and agrees with the index entry by entry; the entry of its number is the last of the list and has the number, player, place and letter of the event, not synced; a change of the remaining tiles is announced exactly when the highest number grew. |
| `TileIndex.Tiles.Remaining` | client/vsx-game-state.c:176-181 | The number of tiles minus one more than the highest number seen. |
| `TileIndex.Tiles.HandleNTilesChanged` | client/vsx-game-state.c:500-518 | Announces exactly a changed number. |
| `TileIndex.Tiles.ResetTiles` | client/vsx-game-state.c:979-996 | Empties both structures; announces exactly when there was a tile. |

## Left out

Images

- Inflate.ZBuf.ParseZlib: promises nothing for streams that end early, use the reserved length symbols 286 and 287 or
  distance symbols 30 and 31, or violate an assertion of the source (a length more frequent than its size allows, more than
  286 literal codes, a repeat with nothing before it); there the source reads made-up zero bits or stops at an assertion.
- Inflate.ZBuf.ParseBlock: the same for one block.
- Inflate.ZBuf.ParseHuffmanBlock: the same for blocks that end early or use the reserved symbols.
- Inflate.ZBuf.ParseSymbol: the same for one round of its loop.
- Inflate.ZBuf.ParseMatch: the same for a match that runs past the end or uses the reserved symbols.
- Inflate.ZBuf.ComputeHuffmanCodes: the same for headers that end early or violate an assertion.
- Inflate.ZBuf.ParseCodeLengths: the same for the list of code lengths.
- Inflate.ZBuf.ParseRun: the same for one symbol of that list.
- Adam7.CreateImage: promises nothing about the buffer after a refusal or after the decoder has read behind its data.
- PngReader.Png.ParseFile: palettes, transparency chunks, the CgBI variant, chunk lengths from 2^31 on, the scan-only modes
  and the conversion to another number of components are outside the model.
- PngReader.Png.ParseHeader: headers of palette images are outside the model.
- PngReader.Png.ParseChunk: as for the whole file.
- PngReader.Png.Complete: image data for which `Inflate.ZBuf.ParseZlib` promises nothing is outside the model.
- PngReader.Png.Inflated: the same data is outside the model; the output buffer starts at 16384 bytes and is never refused
  more memory.
- The growth of the buffer that collects IDAT data is a sequence append.
- PngWriter.WritePng: the side is a parameter instead of the constant 37.
- The JPEG, BMP, TGA, PSD, PIC, GIF and HDR decoders, and the generation of QR codes and invitation links.
- Failed allocations, and 32-bit overflow of sizes and offsets other than the count of what is left of interlaced data; the
  decoder's own size checks keep them out of reach.

Connection

- Sockets, `poll`, `connect`, `read`, `write` and the clock are parameters of the operations; clock readings lie below
  INT64_MAX by at least the longest timeout, and the order of readings is not used.
- Listeners that call back into the connection while an event is emitted.
- Connection.Conn.ProcessMessage: the fields of events (player numbers, names, tile letters, error texts) and the
  per-message handlers beyond accepting the payload, and the state they change: events carry the payload itself.
- Person and conversation identifiers are their eight bytes, never decoded; message numbers do not wrap at 2^16 until they
  are written.
- Strings are byte sequences without a terminator; the bytes after the terminator in the fixed language buffer are not
  modelled.
- Proto.Clip: where the source runs below the start of the text, which `Proto.ClipInside` decides, nothing is promised; the
  model then sends an empty message.
- The shared writer of commands is modelled by its result, one whole frame or nothing, not by its loop over the arguments.
- The links of the lists of pending moves and messages, which are sequences here.
- ConnRequests.SaidInOrder: a reset throws away the messages that wait; runs with one are not covered.
- ConnWire.ItemFits: the header commands with texts, whose names are bounded only by the callers.
- ConnOutput.EverySocketStream: nothing is claimed about delivery across sockets, since a reconnect drops the buffer.

Textures and game state

- Bsp.Allocator.Add: expects at most 65532 nodes, so that child references stay below the two sentinels, and positive sizes.
- Bsp.Allocator.Place: the same bound on the nodes.
- OpenGL, FreeType and the look-up of glyphs in the hash table; the name of a new texture is a parameter.
- FontTexture.TexelToCoordinate: texels from 32769 on, where the product overflows the source's 32-bit integers; textures
  have 1024.
- FontTexture.Library.ReserveTextureSpace: expects the same bound on the nodes of every texture.
- FontTexture.Library.TryTextures: the same.
- The mutex, condition and main-thread scheduling calls: sections under the mutex are atomic steps.
- What handlers do with an event other than a tile change; the instance state sent along with header events; player names,
  flags, shouts, dialogs and pages.
- Painters, gestures, guide data and other user interface code.
