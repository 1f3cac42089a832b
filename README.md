# Latex weighing stations and gateway: a Dafny model

The system weighs natural-rubber latex at a buying point. Three ESP32 weighing
stations each read a customer's MIFARE Classic RFID tag and take a weight from a
serial scale. Each sends a fixed 41-byte record over ESP-NOW to an ESP32 gateway:

- a hex UID text field, 20 bytes;
- a value text field, 20 bytes;
- a station-kind byte.

The gateway turns each record into a JSON request to the back-end HTTP API.

- **Scale_1** (kind 1, raw latex) sends the captured reading.
- **Scale_2** (kind 2, vehicle weighing) uses block 4 of the tag as scratch storage
  between two scans. On the first scan it stores the weight on the tag and sends
  nothing. On the second it reads the stored weight back, clears the block, and
  sends the stored weight minus the new reading.
- **Scale_3** (kind 3, moisture sample) takes two readings in one presentation and
  sends their ratio (second / first).
- **Gateway** routes by kind:
  - kind 1: POST to `mu-tap`.
  - kind 2: PUT to `mu-nuoc`.
  - kind 3: PUT to `tsc-drc`, with DRC = 0.9 × TSC.

  It retries a request up to three times while the HTTP client returns no
  response. Any other kind is dropped.
- The desktop app's `generateRandomPassword` builds an 8-character temporary password.
  It holds one upper-case letter, one lower-case letter, one digit and one special
  character, plus four characters from their union. It then shuffles the password
  with position swaps.

The model has one module per concern:

- `CText`: C character buffers, `strncpy`, NUL-terminated reads.
- `Retry`: the shape shared by both bounded retry loops.
- `Numbers`: abstract floats and the number routines as supplied functions.
- `Uid`: the UID text.
- `TagStore`: the tag's blocks and the `readBlock`/`writeBlock`/`clearBlock`/`hasDataInBlock` helpers.
- `ScaleReader`: the serial weight parser.
- `EspNow`: the record layout and the station send loop.
- `ScaleOne`, `ScaleTwo`, `ScaleThree`: each station's `loop`.
- `Gateway`: the gateway's callback, routing, HTTP retry and `loop`.
- `Password`: the password generator.

Station and gateway state (the sketches' globals) and the tag are classes whose
methods update their fields. Each `loop` iteration is one method call.

The hardware is outside the model; its behaviour is supplied as parameters:

- an `Exchange(authOk, transferOk)` per MFRC522 transaction;
- a `seq<bool>` of send-callback verdicts per ESP-NOW attempt;
- a `seq<int>` of HTTP client results per request;
- a `seq<string>` of serial lines.

When the serial lines run out before a usable reading, the station would still be
blocked reading. The model reports that as the `AwaitingScale` outcome.

The model follows the code as written. In particular:

- Scale_1 starts a reading only at a digit, so it drops a minus sign that Scale_2
  and Scale_3 keep (`ScaleReader.SignDivergence`).
- Scale_3 divides by the first reading without a zero check. A zero first reading
  sends the text of an infinity or NaN (`ScaleThree.RatioMeaning`).
- A 10-byte UID gives 20 hex digits, but the field keeps only 19. Two such tags can
  be stored under the same identifier (`Uid.TenByteUidsCollide`).
- Scale_2 declares `isFirstScan` but never reads it. The scan phase depends only on
  the tag's block 4, so a first weight that formats as `0.00` is forgotten
  (`ScaleTwo.ZeroWeightForgotten`).
- The gateway treats every positive HTTP code as final, 4xx and 5xx included
  (`Gateway.ThirdAnswerDelivers`).

## Model

| member | source | states |
|---|---|---|
| CText.FirstIndex | Code_ESP32/Scale_2.cpp:366-369 | the index of the first occurrence (or the length when there is none): every earlier element differs and the element there matches |
| CText.CString | Code_ESP32/Scale_2.cpp:365-369 | reading a buffer as a C string yields the characters before its first zero byte, none of them NUL, followed by a zero byte or the end of the buffer |
| CText.StrNCpy | Code_ESP32/Scale_2.cpp:148 | `strncpy` copies a prefix of the source of at most n characters with no NUL; it stops at n, at the end of the source, or at a NUL |
| CText.FixedField | Code_ESP32/Scale_2.cpp:173-175 | a zeroed buffer after `strncpy(buf, s, size - 1)` has the buffer's size and always ends in a NUL |
| CText.ByteCharRoundTrip | Code_ESP32/Scale_2.cpp:368 | a non-NUL 8-bit character stored in a byte and read back as `(char)` is unchanged and non-zero |
| CText.FieldRoundTrip | Code_ESP32/Scale_2.cpp:173-175 | copying C text into a field and reading the field back as a C string gives the text cut to size - 1 characters |
| CText.ShortFieldRoundTrip | Code_ESP32/Scale_2.cpp:148 | text shorter than the field comes back unchanged |
| CText.CStringIsCText | Code_ESP32/Scale_2.cpp:365-369 | text read from a buffer contains no NUL and only 8-bit characters |
| CText.CStringPrefix | Code_ESP32/Gateway/main.cpp:127 | a C string that ends within the first n bytes reads the same from the whole buffer |
| Retry.FirstTrue | Code_ESP32/Scale_2.cpp:213-223 | the first successful attempt within the limit, or the limit: no earlier attempt succeeded and the one found did |
| Retry.AttemptsMade | Code_ESP32/Gateway/main.cpp:84-101 | a stop-at-first-success loop makes at most `limit` attempts, and at least one when the limit is positive |
| Retry.AttemptsExact | Code_ESP32/Gateway/main.cpp:94-96 | when attempt k is the first success, exactly k + 1 attempts are made |
| Retry.AllFail | Code_ESP32/Scale_2.cpp:213-223 | when every attempt fails, all `limit` attempts are made |
| Numbers.Divide | Code_ESP32/Scale_3.cpp:196 | the quotient is finite exactly when the divisor is non-zero, and then times the divisor gives the dividend; 0/0 is NaN; otherwise it is an infinity with the dividend's sign |
| Uid.ArduinoHex | Code_ESP32/Scale_2.cpp:145 | `String(b, HEX)` yields one or two digits |
| Uid.ToUpper | Code_ESP32/Scale_2.cpp:147 | `String::toUpperCase` keeps the length |
| Uid.ToUpperMeaning | Code_ESP32/Scale_2.cpp:147 | no lower-case letter remains; each lower-case letter becomes the same letter in upper case; every other character is kept |
| Uid.ToUpperIdempotent | Code_ESP32/Scale_2.cpp:147 | upper-casing twice is upper-casing once |
| Uid.FormatUid | Code_ESP32/Scale_2.cpp:142-147 | the padded, upper-cased per-byte hex loop yields exactly two upper-case hex digits per byte, high nibble first |
| Uid.ByteText | Code_ESP32/Scale_2.cpp:144-145 | the "0" pad below 0x10 makes every byte exactly two digits after upper-casing |
| Uid.UidHexAt | Code_ESP32/Scale_2.cpp:143-146 | byte i of the UID occupies characters 2i and 2i + 1 of the text |
| Uid.UidHexIsHex | Code_ESP32/Scale_2.cpp:147 | the UID text is all upper-case hex digits, so it is plain C text |
| Uid.UidRoundTrip | Code_ESP32/Scale_2.cpp:142-147 | parsing the UID text two digits at a time gives back the UID bytes |
| Uid.UidHexInjective | Code_ESP32/Scale_2.cpp:142-147 | different tags get different UID texts |
| Uid.StoredUid | Code_ESP32/Scale_2.cpp:148 | the identifier the record carries: the UID text cut by `strncpy` to 19 characters; its meaning is stated by `StoredUidLength` |
| Uid.StoredUidLength | Code_ESP32/Scale_2.cpp:148 | a UID of up to 9 bytes is stored whole; a longer one keeps its first 19 hex digits; either way the stored identifier is all upper-case hex digits |
| Uid.TenByteUidsCollide | Code_ESP32/Scale_2.cpp:148 | two distinct 10-byte UIDs are stored under the same 19-digit identifier |
| TagStore.TrailerBlock | Code_ESP32/Scale_2.cpp:346 | the trailer that `readBlock`/`writeBlock` authenticate against is in the same sector as the block, at position 3 of the sector |
| TagStore.IsTrailer | Code_ESP32/Scale_2.cpp:376 | the refusal test `(b + 1) % 4 == 0` holds exactly for the blocks at position 3 of their sector |
| TagStore.TrailerIsOwnTrailer | Code_ESP32/Scale_2.cpp:375-376 | `writeBlock` refuses a block exactly when it is its own sector's trailer |
| TagStore.DataBlocksAreNotTrailers | Code_ESP32/Scale_2.cpp:19-20 | the name block (2) and the weight block (4) are data blocks, guarded by trailers 3 and 7 |
| TagStore.BlockTextMeaning | Code_ESP32/Scale_2.cpp:342-372 | a failed authentication or read yields ""; otherwise the bytes before the first zero, at most 16, none NUL |
| TagStore.WrittenFrame | Code_ESP32/Scale_2.cpp:374-392 | a write changes at most its own block and never a trailer |
| TagStore.HasText | Code_ESP32/Scale_2.cpp:339 | the `hasDataInBlock` test on the text read; its meaning is stated by `HasTextMeaning` |
| TagStore.HasTextMeaning | Code_ESP32/Scale_2.cpp:339 | empty text is no data; text longer than four characters, or not opening with '0', is data |
| TagStore.ClearedBlockIsEmpty | Code_ESP32/Scale_2.cpp:394-398 | after a successful clear the block reads as "" and `hasDataInBlock` is false |
| TagStore.ReadAfterWrite | Code_ESP32/Scale_2.cpp:173-176 | text written with the 16-byte buffer reads back as its first 15 characters |
| TagStore.Card.ReadBlock | Code_ESP32/Scale_2.cpp:342-372 | the read loop returns the block's text as a C string, at most 16 characters, or "" on any failure |
| TagStore.Card.WriteBlock | Code_ESP32/Scale_2.cpp:374-392 | the new blocks: unchanged for a trailer or a failed exchange, otherwise the block replaced by the data |
| TagStore.Card.ClearBlock | Code_ESP32/Scale_2.cpp:394-398 | the block becomes sixteen zero bytes under the same conditions as a write |
| TagStore.Card.HasDataInBlock | Code_ESP32/Scale_2.cpp:337-340 | true exactly when the block reads as text other than "", "0" and "0.00"; true implies both exchanges succeeded |
| ScaleReader.TrimStart | Code_ESP32/Scale_2.cpp:297 | trimming the front never lengthens the line, and what remains is empty or opens with a character that is not white space |
| ScaleReader.TrimEnd | Code_ESP32/Scale_2.cpp:297 | trimming the back never lengthens the line, and what remains is empty or ends with a character that is not white space |
| ScaleReader.TrimStartMeaning | Code_ESP32/Scale_2.cpp:297 | trimming the front keeps a suffix of the line, and every character removed is white space |
| ScaleReader.TrimEndMeaning | Code_ESP32/Scale_2.cpp:297 | trimming the back keeps a prefix of the line, and every character removed is white space |
| ScaleReader.TrimEndKeepsFront | Code_ESP32/Scale_2.cpp:297 | trimming the back leaves the first remaining character as it was |
| ScaleReader.Trim | Code_ESP32/Scale_2.cpp:297 | `String::trim` never lengthens the line; what remains is empty or neither opens nor ends with white space |
| ScaleReader.TrimMeaning | Code_ESP32/Scale_2.cpp:297 | `String::trim` keeps one contiguous slice of the line, and everything before and after it is white space |
| ScaleReader.Reading | Code_ESP32/Scale_2.cpp:296-329 | what one serial line yields: `None` for an empty trimmed line, otherwise the run of the trimmed line; its meaning is stated by `ReadingMeaning` and `ReadingIgnoresTrim` |
| ScaleReader.ReadingAt | Code_ESP32/Scale_2.cpp:301-322 | a line without surrounding white space whose first start character is at i and whose run ends at e yields exactly the characters from i to e |
| ScaleReader.FirstStartUnique | Code_ESP32/Scale_2.cpp:301-307 | a position holding a start character with none before it, or the length when there is none, is the first start |
| ScaleReader.FirstStart | Code_ESP32/Scale_2.cpp:301-307 | the first digit or '-' of the line, or the length when there is none |
| ScaleReader.RunEnd | Code_ESP32/Scale_2.cpp:314-322 | the end of the longest run of digits, '.' and '-' from the start |
| ScaleReader.RunEndUnique | Code_ESP32/Scale_2.cpp:314-322 | any position bounding such a run and followed by a non-run character is that run end |
| ScaleReader.ReadingMeaning | Code_ESP32/Scale_2.cpp:296-329 | a line is skipped exactly when its trimmed text has no start character; otherwise the run is non-empty, opens with a start character, holds only digits, '.' and '-', and is maximal |
| ScaleReader.ExtractSkipsLeading | Code_ESP32/Scale_2.cpp:297 | a leading white-space character does not change the kept run |
| ScaleReader.ExtractSkipsTrailing | Code_ESP32/Scale_2.cpp:297 | a trailing white-space character does not change the kept run |
| ScaleReader.TrimStartInert | Code_ESP32/Scale_2.cpp:297 | removing all leading white space does not change the kept run |
| ScaleReader.TrimEndInert | Code_ESP32/Scale_2.cpp:297 | removing all trailing white space does not change the kept run |
| ScaleReader.ReadingIgnoresTrim | Code_ESP32/Scale_2.cpp:296-329 | the kept run equals the one found in the untrimmed line |
| ScaleReader.SignRuleAcceptsMore | Code_ESP32/Scale_1.cpp:196 | every line Scale_1 accepts, Scale_2 and Scale_3 accept too |
| ScaleReader.NextReading | Code_ESP32/Scale_2.cpp:294-334 | the first usable line from a position on, with its run; every line skipped before it was unusable; `None` when no line is usable |
| ScaleReader.ParseLine | Code_ESP32/Scale_2.cpp:296-329 | the two scanning loops keep exactly the run that `Reading` defines, or skip the line |
| ScaleReader.TakeRun | Code_ESP32/Scale_2.cpp:311-322 | the copy loop keeps the characters from the start up to the first one that is not a digit, '.' or '-' |
| ScaleReader.ReadWeight | Code_ESP32/Scale_2.cpp:291-335 | the blocking loop returns the first usable line at or after the position, as `NextReading` defines it |
| ScaleReader.RunIsCText | Code_ESP32/Scale_2.cpp:325 | a kept run is NUL-free text of 8-bit characters, so it fits a C field unchanged |
| ScaleReader.UnitSuffixDropped | Code_ESP32/Scale_2.cpp:315-322 | "12.34 kg" yields "12.34" under both start rules |
| ScaleReader.SignDivergence | Code_ESP32/Scale_1.cpp:194-200 | "abc-5.5g" yields "-5.5" at Scale_2/Scale_3 but "5.5" at Scale_1 |
| ScaleReader.SignKept | Code_ESP32/Scale_2.cpp:303 | with '-' as a start character, "abc-5.5g" yields "-5.5" |
| ScaleReader.SignDropped | Code_ESP32/Scale_1.cpp:196 | with only digits as start characters, "abc-5.5g" yields "5.5" |
| EspNow.Encode | Code_ESP32/Scale_2.cpp:40-44 | the frame is 41 bytes, each text field is NUL-terminated, and the last byte is the kind |
| EspNow.Decode | Code_ESP32/Gateway/main.cpp:19-23 | the gateway takes the kind from the last byte |
| EspNow.RecordRoundTrip | Code_ESP32/Gateway/main.cpp:37-38 | the gateway's reading of a well-formed station frame is exactly the record sent |
| EspNow.SendOutcome | Code_ESP32/Scale_2.cpp:213-231 | failure exactly when all five attempts fail; otherwise success at the first successful attempt, within five |
| EspNow.SendWithRetry | Code_ESP32/Scale_2.cpp:213-223 | between one and five attempts; delivered exactly when some attempt of the five succeeds; it stops at the first success, and all five are spent on failure |
| ScaleOne.Station.constructor | Code_ESP32/Scale_1.cpp:46 | the record starts zeroed |
| ScaleOne.Station.Loop | Code_ESP32/Scale_1.cpp:119-182 | without a card, a zeroed kind-1 record and no send; with one, the stored UID and the name block's text; then either still waiting for the scale, or the first usable run (cut to 19 characters) sent with the send loop's outcome |
| ScaleOne.SentValueIsUnsigned | Code_ESP32/Scale_1.cpp:184-228 | Scale_1's value opens with a digit and holds only digits, '.' and '-' |
| ScaleTwo.Station.constructor | Code_ESP32/Scale_2.cpp:40-50 | the record starts zeroed with kind 2, and `isFirstScan` is true |
| ScaleTwo.Station.Loop | Code_ESP32/Scale_2.cpp:127-251 | block 4 holding no data means a first scan: the reading is parsed and stored on the tag, and nothing is sent. Otherwise the stored weight is read back, the block is cleared (even if the scale read then stalls), and the stored weight minus the new reading is sent |
| ScaleTwo.Station.FirstScan | Code_ESP32/Scale_2.cpp:164-183 | first scan: the parsed reading becomes the record value; its value is stored in block 4 as two-decimal text; nothing else changes, or the station is still waiting for the scale |
| ScaleTwo.Station.SecondScan | Code_ESP32/Scale_2.cpp:184-236 | second scan: the stored weight is read back and the block cleared; the difference stored minus new is sent as two-decimal text with the send loop's outcome |
| ScaleTwo.Station.SendDifference | Code_ESP32/Scale_2.cpp:199-231 | the new reading, the difference stored minus new, and that difference as two-decimal text in the record, sent with the send loop's outcome; the stored weight is kept |
| ScaleTwo.StoredWeight | Code_ESP32/Scale_2.cpp:173-176 | the weight text as the 16-byte buffer keeps it; its meaning is stated by `StoredWeightMeaning` |
| ScaleTwo.StoredWeightMeaning | Code_ESP32/Scale_2.cpp:173-176 | the stored weight is the two-decimal text when it fits in 15 characters, and its first 15 characters otherwise |
| ScaleTwo.TwoScanCycle | Code_ESP32/Scale_2.cpp:162-195 | after a successful first-scan write, the block reads back as the weight text cut to 15 characters, and after a successful clear it holds no data |
| ScaleTwo.ZeroWeightForgotten | Code_ESP32/Scale_2.cpp:174-176 | a first weight formatted as "0.00" leaves the next scan a first scan again |
| ScaleTwo.TwoScans | Code_ESP32/Scale_2.cpp:127-251 | two scans of a tag with an empty block: a checkpoint, then the difference sent, and the block left empty |
| ScaleTwo.ScanOnce | Code_ESP32/Scale_2.cpp:162-183 | a scan of a tag with an empty block, all exchanges succeeding, is a checkpoint that leaves the stored weight text in block 4 |
| ScaleTwo.ScanAgain | Code_ESP32/Scale_2.cpp:184-236 | a scan of a tag with a stored weight, all exchanges succeeding, sends the stored weight minus the new reading and leaves block 4 empty |
| ScaleThree.Station.constructor | Code_ESP32/Scale_3.cpp:39-45 | the record starts zeroed with kind 3 |
| ScaleThree.Station.ReadOnce | Code_ESP32/Scale_3.cpp:204-238 | one blocking read: the parsed value of the first usable line and the position after it, or still waiting |
| ScaleThree.Station.Loop | Code_ESP32/Scale_3.cpp:120-202 | the UID and the name are read and the tag is never written; two readings come from successive usable lines, and their ratio (second / first, two decimals) is sent |
| ScaleThree.Station.SendRatio | Code_ESP32/Scale_3.cpp:196-198 | the ratio text of the two readings becomes the record value, which is then sent with the outcome of the send loop (Scale_3.cpp:158-168); both readings are kept |
| ScaleThree.RatioText | Code_ESP32/Scale_3.cpp:196-198 | at most 19 characters and no NUL; a prefix of the two-decimal text of second / first when the first is non-zero, of NaN for 0 / 0, and of an infinity with the second's sign otherwise |
| ScaleThree.ReadingsInOrder | Code_ESP32/Scale_3.cpp:187-192 | the second reading comes from a later line than the first, and every other line before it was unusable |
| ScaleThree.RatioMeaning | Code_ESP32/Scale_3.cpp:196 | a non-zero first reading gives a finite ratio that, times the first, is the second; a zero first reading gives no finite ratio |
| Gateway.Route | Code_ESP32/Gateway/main.cpp:124-146 | a request exactly for kinds 1, 2 and 3; RFID is the UID text verbatim and the value is parsed as the measurement; POST exactly for kind 1, PUT otherwise |
| Gateway.RoutesDistinct | Code_ESP32/Gateway/main.cpp:15-17 | the endpoint URL identifies the kind |
| Gateway.DrcIsScaledTsc | Code_ESP32/Gateway/main.cpp:130-135 | the kind-3 body is RFID, TSC and DRC = 0.9 × TSC |
| Gateway.Answered | Code_ESP32/Gateway/main.cpp:94 | an attempt counts as answered exactly when its code is positive |
| Gateway.SendWithRetry | Code_ESP32/Gateway/main.cpp:80-104 | no request and -1 when the retry limit is not positive or the method is unsupported; otherwise stop at the first positive code within the limit; all earlier codes were non-positive, and the last code is returned |
| Gateway.ThirdAnswerDelivers | Code_ESP32/Gateway/main.cpp:84-101 | two failures and then any positive code, 4xx/5xx included, ends the retries at the third request |
| Gateway.Node.constructor | Code_ESP32/Gateway/main.cpp:25-26 | the received record starts zeroed and the flag lowered |
| Gateway.Node.OnDataRecv | Code_ESP32/Gateway/main.cpp:37-48 | the callback copies the first 41 bytes and raises the flag |
| Gateway.Node.SendHttpRequest | Code_ESP32/Gateway/main.cpp:117-156 | the request is the routing of the received record; none is sent for an unknown kind; otherwise the retry loop's count and code |
| Gateway.Node.Loop | Code_ESP32/Gateway/main.cpp:159-166 | forwards only when the flag is raised, then lowers it, and leaves the received record untouched |
| Gateway.StationRecordForwarded | Code_ESP32/Gateway/main.cpp:124-141 | a well-formed record of kind 1, 2 or 3 sent by a station is forwarded with its UID as RFID and its value as the measurement |
| Password.Pick | App/dangnhapwindow.cpp:293-296 | a bounded random index picks a character of the given class |
| Password.Draft | App/dangnhapwindow.cpp:290-301 | 8 characters from the alphabet: upper, lower, digit and special at positions 0 to 3 |
| Password.ClassesInAlphabet | App/dangnhapwindow.cpp:298 | the four class picks are characters of `allChars` |
| Password.InAlphabet | App/dangnhapwindow.cpp:298 | every class is part of `allChars` |
| Password.Shuffle | App/dangnhapwindow.cpp:303-308 | the swap loop keeps the multiset of characters |
| Password.ClassSurvives | App/dangnhapwindow.cpp:303-308 | a class present before a reordering is present after it |
| Password.ReorderKeepsAcceptable | App/dangnhapwindow.cpp:303-308 | a reordering keeps the length, the alphabet and the coverage of all four classes |
| Password.GenerateRandomPassword | App/dangnhapwindow.cpp:283-311 | the result has 8 characters, all from `allChars`, with at least one of each of the four classes |

## Left out

- Float arithmetic is kept abstract. `atof`, `String::toFloat` and `String(x, 2)` are supplied functions (`Numbers.Numerics`), with no rounding and no `float` precision. The 0.9 product is exact.
- The 15-character limit of the weight block is modelled through `strncpy`. What `String(x, 2)` produces for very large values is not.
- The MFRC522 reader, the ESP-NOW radio and the HTTP client are outcome parameters. This covers the authentication, read and write commands, send callbacks and response codes.
- A block number the card does not hold is treated like a failed exchange.
- `PICC_HaltA`, `PCD_StopCrypto1` and the `Buzzer` are left out: they have no effect on the modelled state.
- The TFT display (`hien_thi`, the "ESP_NOW !" screen), the `millis()` display timeout and the gateway's LED blink are left out as output only.
- `setup` is left out. That covers WiFi channel lookup, `esp_now_init`, peer registration, and the halt-forever loops on init failure.
- Callback asynchrony is not modelled. The send callback's verdict is taken as known when each attempt is checked, and a received frame is handled at the next `loop`.
- `readStringUntil` timeouts and partial lines are left out. The serial input is a finite sequence of complete lines.
- JSON serialisation (ArduinoJson), TLS and the HTTP response body (`handleResponse`) are left out. A request is modelled as method, URL and ordered fields.
- Gateway.Node.OnDataRecv: requires a frame of at least 41 bytes. A shorter frame would make `memcpy` read past the received data.
- Decoding a frame whose UID field has no NUL would let `String(incoming.uidStr)` run on. `EspNow.Decode` reads on only to the end of the 41-byte frame.
- Block numbers are natural numbers. The source's `int` could be negative, but only the constants 2 and 4 are used.
- The random generator's seeding from the clock is not modelled. Every random index is an arbitrary in-range choice.
- `readBlock` in Scale_1.cpp:256-287 and Scale_3.cpp:277-308 is the same code as in Scale_2.cpp:342-372. It is modelled once, as `TagStore.Card.ReadBlock`.
- The send loops of the three stations are also identical (Scale_1.cpp:155-165, Scale_3.cpp:158-168). They are modelled once, as `EspNow.SendWithRetry`.
- The station's `struct_message` field names differ (`canTa`, `canXe`, `canTieuly`), but the layout is the same. They are modelled as one `EspNow.Record`.
