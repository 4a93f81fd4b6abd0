# verysing — a verified model of its core logic

verysing is an electronic-signature application: a React web client (sign-in and
sign-up, payment, document library, contract templates, a form builder, sending a
document for signature, signing, and public validation of a signed document), a
FastAPI signing server, and a small API that registers users and builds Pix
charges. This project models, in Dafny, the logic those parts carry out on their
own, and proves what it promises:

- **Pix "copia e cola" payload** (`Utf8`, `Hex`, `Crc16`, `Tlv`, `PixUtils`): the
  BR Code data objects of the Banco Central, closed by the CRC of section 4.7.3 of
  the EMV QR Code Specification for Payment Systems (Merchant-Presented Mode). The
  CRC is an imperative bit loop proved against a functional CRC-16/CCITT-FALSE; the
  payload is proved to open with "000201", to end with "6304" and the CRC of
  everything before it, and to read back field by field. Two framing defects of
  the payload are reported under Findings and corrected.
- **Input masks** (`Login`, `Pagamento`, on the helpers of `Text`): the per-country
  phone masks, the CPF/CNPJ mask, and the card, expiry, CVV and PIX-CPF masks.
  They are written as explicit slicing of the digits; where a pattern cannot
  match, the input is kept, as JavaScript's `replace` does. Digit preservation,
  idempotence and the exact layouts are proved.
- **Page state** as classes whose methods update fields: the sign-in/sign-up page,
  the payment page, the document library (`MeusDocumentos`), the form builder
  (`CriarFormulario`), the send page and its recipient list (`EnviarDocumento`),
  the contract templates page (`ModelosContrato`), the dashboard profile form and
  header (`Dashboard`, `DashboardLayout`) and the signing page (`Home`). Browser
  storage is a `map` field. The network, the clock, ids and translations are
  parameters.
- **Server decisions** (`Principal`): classifying extracted text into party labels
  and signature lines, searching the last three pages, choosing where each
  signature goes (a line beats a label, which beats the default), the signatory
  list, and the file names tried for a validation code. **Registration and key
  choice** (`ApiIndex`): e-mail and CPF uniqueness, plan status and trial window,
  and where the signing key comes from. The server's own registration handler
  (servidor/principal.py:62-107) applies the same rules as api/index.py:47-87, and
  `ApiIndex` models both.
- **Small selections**: recent activity (`Dashboard`, on a stable sort in
  `Sorting`), the highlighted sidebar entry, and the validation page's code, fetch
  guard and download names (`Validacao`).

Python's CRC register is masked to 16 bits after each byte. The model's 16-bit
register wraps at each bit step instead. The two agree, because the low 16 bits
of a shift and the bit-15 test depend only on the low 16 bits.

## Model

| member | source | states |
|---|---|---|
| Utf8.EncodeChar | api/pix_utils.py:6 | one to four bytes per character, one byte exactly for ASCII |
| Utf8.Encode | api/pix_utils.py:6 | the encoding is at least as long as the text, and as long exactly when the text is ASCII |
| Crc16.Crc16Ccitt | api/pix_utils.py:3-17 | the byte-by-byte, bit-by-bit register loop yields the four hex digits of the CRC specification function over the UTF-8 bytes; the empty text gives "FFFF" |
| Crc16.TopSet | api/pix_utils.py:11-12 | when bit 15 is set, the masked shift-and-xor is the specification's bit step |
| Crc16.TopClear | api/pix_utils.py:13-14 | when bit 15 is clear, the masked shift is the specification's bit step |
| Crc16.CrcCheckValue | api/pix_utils.py:3-17 | the CRC of the bytes of "123456789" is 0x29B1, the check value of CRC-16/CCITT-FALSE (polynomial 0x1021, initial 0xFFFF) |
| Crc16.CheckFirstThird | api/pix_utils.py:8-15 | the register after the bytes "123" is 0x5BCE |
| Crc16.CheckSecondThird | api/pix_utils.py:8-15 | the register after the bytes "456", from 0x5BCE, is 0x2EF4 |
| Crc16.CheckLastThird | api/pix_utils.py:8-15 | the register after the bytes "789", from 0x2EF4, is 0x29B1 |
| Crc16.ByteStep | api/pix_utils.py:9-15 | one byte step is the xor into the top half followed by eight bit steps |
| Crc16.ShiftEight | api/pix_utils.py:10 | eight bit steps in a row |
| Hex.HexChar | api/pix_utils.py:17 | a nibble renders as an upper-case hexadecimal digit |
| Hex.HexValue | api/pix_utils.py:17 | an upper-case hexadecimal digit is the rendering of exactly one nibble |
| Hex.Hex4 | api/pix_utils.py:17 | `{crc:04X}` is exactly four upper-case hexadecimal digits |
| Hex.ParseHex4 | api/pix_utils.py:17 | whatever it reads renders back to the text it read |
| Hex.HexRoundTrip | api/pix_utils.py:17 | reading a rendered digit gives back its nibble |
| Hex.ParseHex4Hex4 | api/pix_utils.py:17 | reading the four digits gives back the 16-bit value |
| Hex.NibblesOf | api/pix_utils.py:17 | four nibbles packed into 16 bits unpack to themselves |
| Tlv.Decode | api/pix_utils.py:39-50 | a successful read of ID/length/value objects re-encodes to its input, and every object read is encodable |
| Tlv.DecodeEncode | api/pix_utils.py:39-50 | encoding encodable objects and reading them back gives the objects |
| Tlv.EncodeAppend | api/pix_utils.py:39-50 | the encoding of a concatenation is the concatenation of the encodings |
| Tlv.EncodeOne | api/pix_utils.py:39-50 | one object encodes as `id`, two-digit length, value |
| Tlv.EncodeHead | api/pix_utils.py:39-50 | an encoding starts with the first object's ID, its two length digits and its value |
| Tlv.HeadField | api/pix_utils.py:39-50 | the first object read off a text re-encodes to the characters it came from |
| Tlv.Slices | api/pix_utils.py:39-50 | the positions of ID, length, value and rest in an encoded object |
| PixUtils.AmountText | api/pix_utils.py:25 | `{valor:.2f}` ends with a point and two digits and starts with '-' iff the amount is negative |
| PixUtils.AmountTextValue | api/pix_utils.py:25-44 | the amount text reads back as the amount in cents |
| PixUtils.DefaultTxidFramed | api/pix_utils.py:19 | the default transaction id "***" is framed as a three-character sub-field 05 that reads back as itself |
| PixUtils.Fields | api/pix_utils.py:39-50 | the objects a reader expects: one per data object, with its ID and content |
| PixUtils.EmitHonest | api/pix_utils.py:39-50 | data objects whose declared length is their content's length emit the TLV encoding of their fields |
| PixUtils.Segments | api/pix_utils.py:23-50 | the payload is nine data objects; the merchant name (field 59) is the name's first 25 characters and the city (field 60) the city's first 15, each declared with its own length |
| PixUtils.EmitFormatIndicator | api/pix_utils.py:40 | the payload opens with "000201" |
| PixUtils.BodyFrame | api/pix_utils.py:39-50 | the body opens with "000201" and closes with "6304" |
| PixUtils.GerarPayloadPix | api/pix_utils.py:19-53 | the payload is the body as the source templates it (field-26 length as written, field 62 with "0503"), then the CRC of every byte before the CRC value; it opens with "000201" and has "6304" right before the CRC |
| PixUtils.MerchantLengthCorrectIff | api/pix_utils.py:41 | the field-26 length prefix equals its content's length iff the key has at least ten characters, and is one short otherwise |
| PixUtils.GuiField | api/pix_utils.py:41 | the GUI sub-field is ID "00", length "14" and "br.gov.bcb.pix" |
| PixUtils.MerchantPrefixFields | api/pix_utils.py:41 | the fixed text "0014br.gov.bcb.pix01" is the GUI sub-field followed by the key sub-field's ID |
| PixUtils.MerchantAccountFields | api/pix_utils.py:41 | for a key under 100 characters, field 26's content is the GUI sub-field followed by the key sub-field |
| PixUtils.MerchantAccountDecodes | api/pix_utils.py:41 | the content of field 26 reads back as GUI "br.gov.bcb.pix" and the key |
| PixUtils.TxidSubfieldThree | api/pix_utils.py:48 | a three-character txid reads back whole from field 62 |
| PixUtils.TxidSubfieldOther | api/pix_utils.py:48 | any other txid length does not read back whole |
| PixUtils.TxidSubfieldIff | api/pix_utils.py:48 | field 62 holds sub-field "05" with the whole txid iff the txid has three characters |
| PixUtils.ServerTxidMisframed | api/pix_utils.py:48 | a 20-character txid, as the server passes, is misframed |
| PixUtils.SegmentsSound | api/pix_utils.py:39-50 | with an honest field-26 length and short enough fields, every data object has a numeric ID and an honest length below 100 |
| PixUtils.CrcFieldEncodes | api/pix_utils.py:49-53 | "6304" followed by four characters is the CRC data object |
| PixUtils.FramingEncodes | api/pix_utils.py:39-53 | sound data objects followed by the CRC field are the TLV encoding of their fields and the CRC |
| PixUtils.FramingDecodes | api/pix_utils.py:39-53 | sound data objects followed by the CRC field read back as those fields and the CRC |
| PixUtils.PayloadDecodes | api/pix_utils.py:19-53 | with a key of 10 to 77 characters, the payload as written reads back as its nine fields and the CRC |
| PixUtils.GerarPayloadPixCorrected | api/pix_utils.py:19-53 | the payload with honest field-26 and sub-field-05 lengths, closed by its CRC |
| PixUtils.CorrectedPayloadDecodes | api/pix_utils.py:39-53 | the corrected payload reads back as its fields and CRC for every key up to 77 and txid up to 95 characters, field 26 as GUI and key, field 62 as the whole txid |
| PixUtils.TxidSubfieldCorrected | api/pix_utils.py:48 | sub-field "05" with its real length reads back as the whole txid |
| PixUtils.CorrectedAgrees | api/pix_utils.py:41-48 | where the source's framing is right, the corrected payload is the source's |
| Text.OnlyDigits | web/src/pages/Login.tsx:19 | `replace(/\D/g, '')` leaves only digits and never lengthens |
| Text.OnlyDigitsIdentity | web/src/pages/Login.tsx:19 | a string of digits is left as it is |
| Text.OnlyDigitsAppend | web/src/pages/Login.tsx:19 | the digits of a concatenation are the digits of each part |
| Text.OnlyDigitsOfSeparator | web/src/pages/Login.tsx:19 | a non-digit character has no digits |
| Text.OnlyDigitsNone | web/src/pages/Login.tsx:19 | punctuation and spaces have no digits |
| Text.OnlyDigitsAround | web/src/pages/Login.tsx:19 | punctuation between two pieces contributes no digits |
| Text.Prefix | api/pix_utils.py:23-24 | `s[:n]` (and `slice(0, n)` on a list) is a prefix of `s` of length min(n, len) |
| Text.PrefixOfDigits | web/src/pages/Login.tsx:20 | a prefix of digits is digits |
| Text.DigitChar | api/pix_utils.py:41 | a value below ten renders as a digit |
| Text.DigitValue | api/pix_utils.py:41 | a digit is the rendering of its value |
| Text.NatToString | api/pix_utils.py:41 | `str(n)` is a non-empty string of digits |
| Text.DecimalRoundTrip | api/pix_utils.py:41 | `str(n)` reads back as `n` |
| Text.NatToStringLength | api/pix_utils.py:41 | `str(n)` has one digit below 10, two below 100, three or more from 100 |
| Text.Pad2 | api/pix_utils.py:41-48 | `{n:02}` is digits, two of them reading back as `n` below 100, `str(n)` from 100 |
| Text.Pad2Digits | api/pix_utils.py:41-48 | below 100, `{n:02}` is the tens digit then the units digit |
| Text.DigitRoundTrip | api/pix_utils.py:41-48 | reading a rendered digit gives its value |
| Text.DigitGroups | web/src/pages/Pagamento.tsx:686 | the grouping keeps the first and the last digit in place |
| Text.DigitGroupsDigits | web/src/pages/Pagamento.tsx:686 | the grouping only inserts spaces: the digits come back unchanged |
| Text.DigitGroupsBound | web/src/pages/Pagamento.tsx:686 | g groups after the first add at most g spaces |
| Text.TrimJs | web/src/pages/Home.tsx:56 | `trim()` never lengthens, leaves no whitespace at either end, is empty iff the text is all whitespace, and leaves trimmed text as it is |
| Text.StripPy | servidor/principal.py:200 | `strip()` never lengthens, leaves no whitespace at either end, and is empty iff the text is all whitespace |
| Text.DropLeading | servidor/principal.py:200 | the rest after the leading whitespace, which is all dropped |
| Text.DropTrailing | servidor/principal.py:200 | the text before the trailing characters, which are all dropped |
| Text.TrimTrailingSpace | web/src/pages/Login.tsx:104 | trimming a text that ends in one space removes just that space |
| Text.DigitNotSpace | web/src/pages/Login.tsx:72 | digits are not whitespace |
| Text.Upper | servidor/principal.py:202 | `upper()` maps each character on its own |
| Text.Lower | web/src/pages/MeusDocumentos.tsx:133 | `toLowerCase()` maps each character on its own |
| Text.LowerAppend | web/src/pages/MeusDocumentos.tsx:104 | lower-casing distributes over concatenation |
| Text.ContainsInfix | web/src/pages/MeusDocumentos.tsx:133 | a text contains every infix of itself |
| Text.CountAppend | web/src/pages/Login.tsx:217 | occurrences in a concatenation add up |
| Text.JoinCount | web/src/pages/Login.tsx:217 | joining n separator-free parts adds n-1 separators |
| Text.RemoveChar | servidor/principal.py:202 | `replace(c, '')` is the text with every `c` filtered out and every other character kept in order; a text without `c` is unchanged |
| Text.ReplaceChar | servidor/principal.py:696-697 | `replace(a, b)` rewrites exactly the `a` characters |
| Text.BeforeFirst | web/src/pages/Home.tsx:43 | `split(c)[0]` is the prefix up to the first `c` |
| Text.BeforeFirstAt | web/src/pages/Dashboard.tsx:35 | a `c` with no earlier one ends the first piece |
| Text.Split | web/src/pages/Dashboard.tsx:35 | `split(c)` gives at least one piece and no piece contains `c` |
| Text.JoinCons | web/src/pages/Dashboard.tsx:35 | joining a piece before a non-empty list puts one separator after it |
| Text.JoinSplit | web/src/pages/Dashboard.tsx:35 | splitting at `c` and joining with `c` gives the text back |
| Text.AfterLast | web/src/pages/MeusDocumentos.tsx:104 | `split(c).pop()` is the suffix after the last `c` |
| Text.AfterLastUnique | web/src/pages/MeusDocumentos.tsx:104 | the piece `split(c).pop()` returns is the only suffix free of `c` that is the whole text or follows a `c` |
| Lists.Filter | web/src/pages/MeusDocumentos.tsx:132 | `filter` keeps exactly the satisfying elements, in order |
| Lists.FilterMultiset | web/src/pages/MeusDocumentos.tsx:161 | filtering keeps every satisfying occurrence and no other |
| Lists.FilterAppend | web/src/pages/MeusDocumentos.tsx:187 | filtering distributes over concatenation |
| Lists.Map | web/src/pages/Dashboard.tsx:40 | `map` applies the update to each element in place |
| Lists.Reversed | web/src/pages/Dashboard.tsx:35 | `reverse()` puts the elements last to first |
| Sorting.WithKey | web/src/pages/Dashboard.tsx:33 | the elements with a given key, in order |
| Sorting.Insert | servidor/principal.py:500 | inserting one element adds one |
| Sorting.SortDesc | servidor/principal.py:500 | the sort keeps the length |
| Sorting.InsertSorted | servidor/principal.py:500 | inserting into a descending list keeps it descending |
| Sorting.InsertMultiset | servidor/principal.py:500 | inserting adds exactly the element |
| Sorting.InsertWithKey | servidor/principal.py:500 | inserting keeps the order among equal keys |
| Sorting.SortDescSorted | servidor/principal.py:500 | `sort(reverse=True)` orders by decreasing key |
| Sorting.SortDescPermutation | servidor/principal.py:500 | the sort is a permutation |
| Sorting.SortDescStable | web/src/pages/Dashboard.tsx:33-38 | equal keys keep their relative order, as in both languages' stable sorts |
| Login.CountryOf | web/src/pages/Login.tsx:8-108 | a configuration found for a name is the one stored under that name |
| Login.CountryOfName | web/src/pages/Login.tsx:8-108 | every configured country is found under its own key |
| Login.BrasilDigits | web/src/pages/Login.tsx:18-26 | the Brazilian mask gives back exactly its digits |
| Login.UnitedStatesDigits | web/src/pages/Login.tsx:32-39 | the United States mask gives back exactly its digits |
| Login.IberianDigits | web/src/pages/Login.tsx:45-50 | the Portuguese and Spanish mask gives back exactly its digits |
| Login.FranceDigits | web/src/pages/Login.tsx:69-73 | the French mask gives back exactly its digits |
| Login.FranceUntrimmed | web/src/pages/Login.tsx:72 | the French `trim()` never removes anything from grouped digits |
| Login.PairDigits | web/src/pages/Login.tsx:82-93 | the United Kingdom and Argentine masks give back exactly their digits |
| Login.ChileDigits | web/src/pages/Login.tsx:101-105 | the Chilean mask gives back exactly its digits |
| Login.ChileShort | web/src/pages/Login.tsx:104 | two to five Chilean digits give `d dddd` after the trailing space is trimmed |
| Login.ChileLong | web/src/pages/Login.tsx:104 | six to nine Chilean digits give `d dddd dddd` |
| Login.ShapeDigits | web/src/pages/Login.tsx:18-106 | every country's mask only inserts punctuation and spaces |
| Login.Format | web/src/pages/Login.tsx:18-106 | a formatted number's digits are exactly the typed digits cut to the country's maximum |
| Login.FormatIdempotent | web/src/pages/Login.tsx:18-106 | formatting a formatted number changes nothing |
| Login.PhoneFormat | web/src/pages/Login.tsx:152-153 | typing uses the selected country's formatter, or the Brazilian one for a name without configuration, and keeps exactly the typed digits up to that country's maximum |
| Login.ShapeUnchangedIff | web/src/pages/Login.tsx:21-104 | the mask returns the bare digits exactly for the lengths whose pattern cannot match or whose branch is skipped (United States 7-9, Portugal/Spain 7-8, and so on) |
| Login.DigitGroupsGrows | web/src/pages/Login.tsx:72 | grouping three or more digits in pairs inserts at least one space |
| Login.FitsAppend | web/src/pages/Login.tsx:8-108 | two layouts side by side fit their placeholders side by side |
| Login.FitsDigits | web/src/pages/Login.tsx:8-108 | digits fit a run of '0' slots |
| Login.FitsThree | web/src/pages/Login.tsx:8-108 | three digit groups with punctuation fit the matching placeholder |
| Login.FitsTwo | web/src/pages/Login.tsx:8-108 | two digit groups with punctuation fit the matching placeholder |
| Login.FullNumberFitsPlaceholder | web/src/pages/Login.tsx:8-108 | outside France, a number with as many digits as the placeholder has slots is laid out exactly as the placeholder |
| Login.BrasilFits | web/src/pages/Login.tsx:16-21 | eleven Brazilian digits fit "(00) 00000-0000" |
| Login.UnitedStatesFits | web/src/pages/Login.tsx:30-35 | ten United States digits fit "(000) 000-0000" |
| Login.ChileFits | web/src/pages/Login.tsx:99-104 | nine Chilean digits fit "0 0000 0000" |
| Login.ChileLayoutFits | web/src/pages/Login.tsx:99-104 | the long Chilean layout fits its placeholder |
| Login.IberianFits | web/src/pages/Login.tsx:43-48 | nine Portuguese or Spanish digits fit "000 000 000" |
| Login.FranceNeverFitsPlaceholder | web/src/pages/Login.tsx:66-73 | no French input ever fills "00 00 00 00 00", because only nine digits are kept |
| Login.CpfDigits | web/src/pages/Login.tsx:136-140 | the CPF mask gives back exactly its digits |
| Login.CnpjDigits | web/src/pages/Login.tsx:141-146 | the CNPJ mask gives back exactly its digits |
| Login.CnpjFront | web/src/pages/Login.tsx:143-145 | the CNPJ front `dd.ddd.ddd` holds the first eight digits |
| Login.CnpjBack | web/src/pages/Login.tsx:146 | the CNPJ back holds the remaining digits |
| Login.CpfCnpjMask | web/src/pages/Login.tsx:132-148 | the CPF/CNPJ field keeps exactly the first fourteen typed digits |
| Login.CpfCnpjIdempotent | web/src/pages/Login.tsx:132-148 | masking a masked CPF/CNPJ changes nothing |
| Login.CpfCnpjFull | web/src/pages/Login.tsx:132-148 | eleven digits give `ddd.ddd.ddd-dd` and fourteen give `dd.ddd.ddd/dddd-dd` |
| Login.CpfFull | web/src/pages/Login.tsx:136-140 | eleven digits fit "000.000.000-00" |
| Login.CnpjFull | web/src/pages/Login.tsx:141-146 | fourteen digits fit "00.000.000/0000-00" |
| Login.ItemLines | web/src/pages/Login.tsx:217 | one line per validation entry, `label: msg` |
| Login.ValidationLines | web/src/pages/Login.tsx:209-221 | a validation list shows one entry per line: one line break fewer than entries |
| Login.FullName | web/src/pages/Login.tsx:178 | the trimmed full name has no surrounding whitespace and is never longer than first + space + last |
| Login.LoginName | web/src/pages/Login.tsx:238-239 | the name stored from an e-mail is its part before the first '@' with the first letter upper-cased, or "Usuário" for an empty e-mail |
| Login.SignedUpStorage | web/src/pages/Login.tsx:190-197 | registration stores plan and e-mail, the name and the phone only when non-empty, and changes no other key |
| Login.SignedInStorage | web/src/pages/Login.tsx:236-244 | sign-in keeps a stored non-empty name, otherwise stores the e-mail's name; stores a non-empty e-mail; changes no other key |
| Login.SignUpEffect | web/src/pages/Login.tsx:171-232 | differing passwords stop sign-up before any request; the request carries the trimmed name and the CPF digits; storage and route change only after a created account; a failure sets the classified alert |
| Login.SignInEffect | web/src/pages/Login.tsx:235-247 | sign-in sends nothing, raises no alert and goes to /app |
| Login.LoginPage.constructor | web/src/pages/Login.tsx:114-131 | the form starts in sign-in mode, empty, with Brasil and the free plan |
| Login.LoginPage.CpfChange | web/src/pages/Login.tsx:132-149 | the CPF field holds the mask of what was typed |
| Login.LoginPage.PhoneChange | web/src/pages/Login.tsx:151-154 | the phone holds the selected country's format, Brasil's for an unknown country |
| Login.LoginPage.CountryChange | web/src/pages/Login.tsx:156-165 | changing country clears the phone and switches the language only for a configured country |
| Login.LoginPage.Auth | web/src/pages/Login.tsx:167-248 | submitting has exactly the effect of the sign-in or sign-up specification on alert, storage and route |
| Login.ItemLabel | web/src/pages/Login.tsx:217 | a validation entry's label is never empty, and is its second location element whenever that is present and non-empty |
| Pagamento.EffectivePlanAsWritten | web/src/pages/Pagamento.tsx:46-50 | the page opens with the navigation plan if its table lookup is truthy, else the stored plan if its lookup is truthy, else with none |
| Pagamento.InheritedPlanAccepted | web/src/pages/Pagamento.tsx:46-50 | a stored plan "constructor" passes the truthy lookup although it is not a key of the table |
| Pagamento.OpeningAsWritten | web/src/pages/Pagamento.tsx:46-91 | the first render goes to /login exactly when neither lookup is truthy, shows the page only for one of the table's plans taken from navigation or storage, and throws on an inherited name, which has no price to read at :82 |
| Pagamento.InheritedPlanCrashes | web/src/pages/Pagamento.tsx:46-91 | a stored plan "constructor" with no navigation plan makes the first render throw |
| Pagamento.EffectivePlan | web/src/pages/Pagamento.tsx:46-50 | the resolution over the table's own keys: navigation plan, then stored plan, then none, and only known plans |
| Pagamento.EffectivePlanAgrees | web/src/pages/Pagamento.tsx:46-50 | the two resolutions agree on every name that is not inherited from `Object.prototype` |
| Pagamento.OpeningIntended | web/src/pages/Pagamento.tsx:46-91 | with the table's own keys the first render never throws: it goes to /login exactly when no plan resolves, and otherwise shows the page on the resolved table plan |
| Pagamento.OpeningAgrees | web/src/pages/Pagamento.tsx:46-91 | away from inherited names the page opens exactly as intended |
| Pagamento.CardNumberMask | web/src/pages/Pagamento.tsx:685-687 | the card mask keeps exactly the first sixteen typed digits and is at most nineteen characters |
| Pagamento.CardNumberIdempotent | web/src/pages/Pagamento.tsx:685-687 | masking a masked card number changes nothing |
| Pagamento.CardNumberFull | web/src/pages/Pagamento.tsx:685-687 | sixteen digits give "dddd dddd dddd dddd" |
| Pagamento.CardGroups | web/src/pages/Pagamento.tsx:687 | sixteen digits split into four groups of four |
| Pagamento.ExpiryMask | web/src/pages/Pagamento.tsx:754-759 | the expiry is at most five characters |
| Pagamento.ExpiryDigits | web/src/pages/Pagamento.tsx:754-759 | the expiry keeps the first four digits and holds a "/" (always third) exactly when more than two digits were typed |
| Pagamento.ExpiryShapeDigits | web/src/pages/Pagamento.tsx:754-759 | putting the '/' after two digits keeps the digits, and a '/' appears, as third character, exactly when more than two digits are present |
| Pagamento.DigitsHaveNoSlash | web/src/pages/Pagamento.tsx:754 | digits contain no "/" |
| Pagamento.ExpiryIdempotent | web/src/pages/Pagamento.tsx:754-759 | masking a masked expiry changes nothing |
| Pagamento.CvvMask | web/src/pages/Pagamento.tsx:793-794 | the CVV is digits only, at most three, three whenever three were typed, and a prefix of the typed digits |
| Pagamento.PixCpfMask | web/src/pages/Pagamento.tsx:939-943 | the PIX CPF field keeps exactly the first eleven typed digits |
| Pagamento.PixCpfFull | web/src/pages/Pagamento.tsx:939-943 | eleven typed digits give the layout `ddd.ddd.ddd-dd` |
| Pagamento.PixCpfAgreesWithSignup | web/src/pages/Pagamento.tsx:939-943 | up to eleven digits the PIX CPF mask and the sign-up CPF/CNPJ mask agree |
| Pagamento.StorePlan | web/src/pages/Pagamento.tsx:108-110 | a non-empty selected plan becomes the stored plan; nothing else in storage changes |
| Pagamento.PaymentPage.constructor | web/src/pages/Pagamento.tsx:43-91 | without an effective plan the page goes to /login; with a table plan it opens on that plan with every input empty; with an inherited name as the plan the render throws and the page neither opens nor navigates; a crashed page renders nothing, so every handler below requires a page that has not crashed |
| Pagamento.PaymentPage.CardNumberChange | web/src/pages/Pagamento.tsx:684-689 | the field holds the card mask of the input |
| Pagamento.PaymentPage.ExpiryChange | web/src/pages/Pagamento.tsx:753-761 | the field holds the expiry mask of the input |
| Pagamento.PaymentPage.CvvChange | web/src/pages/Pagamento.tsx:792-795 | the field holds the CVV mask of the input |
| Pagamento.PaymentPage.UserCpfChange | web/src/pages/Pagamento.tsx:938-944 | the field holds the PIX CPF mask of the input |
| Pagamento.PaymentPage.Submit | web/src/pages/Pagamento.tsx:93-113 | an incomplete card sets the error and changes nothing else; a complete one stores the plan and opens /app |
| Pagamento.PaymentPage.Boleto | web/src/pages/Pagamento.tsx:115-126 | the bank slip stores the plan and opens /app without a check |
| Pagamento.PaymentPage.Pix | web/src/pages/Pagamento.tsx:128-157 | no request without both name and CPF; otherwise the request carries them and the plan; the answer becomes the charge, a failure sets the error |
| Pagamento.PaymentPage.ConfirmPix | web/src/pages/Pagamento.tsx:159-188 | nothing at all happens before a charge exists; otherwise the confirmation carries the txid, and success sets the download address, the success alert and the stored plan |
| Pagamento.PaymentPage.ConfirmFreePlan | web/src/pages/Pagamento.tsx:527-532 | the free plan is stored and /app opened |
| MeusDocumentos.FileTypeOf | web/src/pages/MeusDocumentos.tsx:103-109 | a file is a PDF iff its lower-cased last extension is "pdf", an image iff it is jpg, jpeg, png or gif, and a document otherwise |
| MeusDocumentos.TypeOfExtension | web/src/pages/MeusDocumentos.tsx:105-108 | "pdf" gives PDF, the four image extensions give image, anything else document |
| MeusDocumentos.AfterLastLower | web/src/pages/MeusDocumentos.tsx:104 | the last dot is found in the same place whatever the case |
| MeusDocumentos.LowerIdempotent | web/src/pages/MeusDocumentos.tsx:104 | lower-casing twice is lower-casing once |
| MeusDocumentos.FileTypeIgnoresCase | web/src/pages/MeusDocumentos.tsx:103-109 | names equal up to case have the same type |
| MeusDocumentos.ExtensionOfLower | web/src/pages/MeusDocumentos.tsx:104 | the extension can be read off the lower-cased name |
| MeusDocumentos.FilteredDocs | web/src/pages/MeusDocumentos.tsx:132-136 | a document is listed iff its lower-cased name contains the lower-cased search term and no folder is open or it is in the open folder |
| MeusDocumentos.AllListed | web/src/pages/MeusDocumentos.tsx:132-136 | with an empty search and no folder open, the listing is the whole library in order |
| MeusDocumentos.InFolder | web/src/pages/MeusDocumentos.tsx:196 | exactly the documents filed in the folder |
| MeusDocumentos.FindFolder | web/src/pages/MeusDocumentos.tsx:194 | `find` returns a folder with the id, or none when no folder has it |
| MeusDocumentos.FolderSummary | web/src/pages/MeusDocumentos.tsx:193-205 | a summary exists iff the folder does; it lists one `- name (size)` line per document of the folder, in order, under the folder's name, in `<name>_resumo.txt` |
| MeusDocumentos.Uploaded | web/src/pages/MeusDocumentos.tsx:117-125 | the new document is a draft in the open folder, typed by its name |
| MeusDocumentos.Moved | web/src/pages/MeusDocumentos.tsx:148-150 | only the documents with the moving id change, and only their folder |
| MeusDocumentos.WithoutDocument | web/src/pages/MeusDocumentos.tsx:161 | exactly the documents with another id remain |
| MeusDocumentos.WithoutFolder | web/src/pages/MeusDocumentos.tsx:186 | exactly the folders with another id remain |
| MeusDocumentos.OutsideFolder | web/src/pages/MeusDocumentos.tsx:187 | exactly the documents not filed in the folder remain |
| MeusDocumentos.DeleteFolderPartition | web/src/pages/MeusDocumentos.tsx:186-196 | every document is either kept or in the deleted folder, and counted once |
| MeusDocumentos.PartitionCount | web/src/pages/MeusDocumentos.tsx:187-196 | the two filters' sizes add up to the library's |
| MeusDocumentos.Library.constructor | web/src/pages/MeusDocumentos.tsx:30-62 | the page starts from the stored (or seed) lists with no folder open |
| MeusDocumentos.Library.Upload | web/src/pages/MeusDocumentos.tsx:115-129 | one new draft goes in front; the others keep their order |
| MeusDocumentos.Library.CreateFolder | web/src/pages/MeusDocumentos.tsx:138-144 | a non-blank name appends one folder and clears the name; a blank one changes nothing |
| MeusDocumentos.Library.MoveDocument | web/src/pages/MeusDocumentos.tsx:146-153 | with a document selected only its folder changes and the selection clears |
| MeusDocumentos.Library.DeleteDocument | web/src/pages/MeusDocumentos.tsx:155-164 | the documents with that id go, the rest stay in order |
| MeusDocumentos.Library.DeleteFolder | web/src/pages/MeusDocumentos.tsx:180-191 | the folder and every document filed in it go; the open folder resets when it was the deleted one |
| MeusDocumentos.ExtensionLowersSuffix | web/src/pages/MeusDocumentos.tsx:104 | the extension is the lower-cased tail after the name's last dot (the whole name when it has none), holds no dot and is no longer than the name |
| CriarFormulario.DefaultOption | web/src/pages/CriarFormulario.tsx:219-269 | a generated option is marked default and reads "<stem> <n>" |
| CriarFormulario.NewField | web/src/pages/CriarFormulario.tsx:229-237 | a new question has the default label, marked default, free text, required, no options |
| CriarFormulario.Edited | web/src/pages/CriarFormulario.tsx:241-260 | an edit changes only its own property; setting the label clears the default mark; switching to a choice question with no options seeds options 1 and 2, and otherwise the options are kept |
| CriarFormulario.EditKeepsNumbered | web/src/pages/CriarFormulario.tsx:241-260 | every edit keeps each default option numbered by its position |
| CriarFormulario.WithNewOption | web/src/pages/CriarFormulario.tsx:263-274 | adding appends one default option numbered length + 1 and keeps the others |
| CriarFormulario.WithOptionText | web/src/pages/CriarFormulario.tsx:276-285 | typing replaces only option `index`, marked user-written |
| CriarFormulario.WithoutOption | web/src/pages/CriarFormulario.tsx:287-294 | removal drops exactly position `index` and keeps the order of the rest |
| CriarFormulario.NewOptionKeepsNumbered | web/src/pages/CriarFormulario.tsx:263-274 | adding an option keeps the numbering |
| CriarFormulario.OptionTextKeepsNumbered | web/src/pages/CriarFormulario.tsx:276-285 | typing into an option keeps the numbering |
| CriarFormulario.RemovingLastKeepsNumbered | web/src/pages/CriarFormulario.tsx:287-294 | removing the last option keeps the numbering |
| CriarFormulario.RemovingFirstRepeatsNumber | web/src/pages/CriarFormulario.tsx:263-294 | removing option 1 of two and adding one gives two options that both read "<stem> 2" |
| CriarFormulario.Relabeled | web/src/pages/CriarFormulario.tsx:208-227 | the language pass rewrites a default label to the new default and each default option to "<stem> <position>", and leaves user-written text and everything else alone |
| CriarFormulario.RelabeledNumbered | web/src/pages/CriarFormulario.tsx:208-227 | after the pass every default option is numbered by position and user-written options are unchanged |
| CriarFormulario.RelabeledIdempotent | web/src/pages/CriarFormulario.tsx:208-227 | a second pass with the same texts changes nothing |
| CriarFormulario.RelabeledFixesNumbered | web/src/pages/CriarFormulario.tsx:208-227 | a question already numbered in the language is left as it is |
| CriarFormulario.Changed | web/src/pages/CriarFormulario.tsx:241-294 | an option change touches only the options |
| CriarFormulario.ChangeKeepsNumbered | web/src/pages/CriarFormulario.tsx:241-294 | every change keeps the numbering except removing an option before the last |
| CriarFormulario.ChangedAt | web/src/pages/CriarFormulario.tsx:241-294 | only the questions with the id change |
| CriarFormulario.ChangedAtKeepsNumbered | web/src/pages/CriarFormulario.tsx:241-294 | the list-wide numbering survives every change but an early option removal |
| CriarFormulario.WithoutField | web/src/pages/CriarFormulario.tsx:296-298 | exactly the questions with another id remain |
| CriarFormulario.RelabeledAll | web/src/pages/CriarFormulario.tsx:208-227 | the pass applies to every question in place |
| CriarFormulario.FormBuilder.constructor | web/src/pages/CriarFormulario.tsx:199-205 | the builder starts empty |
| CriarFormulario.FormBuilder.SetTitle | web/src/pages/CriarFormulario.tsx:199 | the title is the typed text |
| CriarFormulario.FormBuilder.SetRecipientEmail | web/src/pages/CriarFormulario.tsx:200 | the recipient is the typed text |
| CriarFormulario.FormBuilder.AddField | web/src/pages/CriarFormulario.tsx:229-239 | one new question is appended, and the numbering is kept |
| CriarFormulario.FormBuilder.Apply | web/src/pages/CriarFormulario.tsx:241-294 | the change applies to the questions with the id, and the numbering is kept except by option removal |
| CriarFormulario.FormBuilder.RemoveField | web/src/pages/CriarFormulario.tsx:296-298 | the questions with the id go, and the numbering is kept |
| CriarFormulario.FormBuilder.ChangeLanguage | web/src/pages/CriarFormulario.tsx:207-227 | the language pass runs over every question, after which all are numbered |
| CriarFormulario.FormBuilder.Submit | web/src/pages/CriarFormulario.tsx:300-309 | an incomplete form (no title, no recipient or no question) only shows the message; a complete one opens the confirmation |
| CriarFormulario.FormBuilder.CloseSuccess | web/src/pages/CriarFormulario.tsx:311-314 | closing the confirmation goes to /app |
| EnviarDocumento.Witness | web/src/pages/EnviarDocumento.tsx:35-37 | the added row is a blank witness with the given id |
| EnviarDocumento.Updated | web/src/pages/EnviarDocumento.tsx:45-47 | only the rows with the id change, and in them only the edited field |
| EnviarDocumento.Removed | web/src/pages/EnviarDocumento.tsx:39-43 | a list of one row is kept; otherwise exactly the rows with another id remain, in order; with distinct ids the list never becomes empty |
| EnviarDocumento.DropsAtMostOne | web/src/pages/EnviarDocumento.tsx:39-43 | with distinct ids removal drops at most one row |
| EnviarDocumento.TailDistinct | web/src/pages/EnviarDocumento.tsx:19 | distinct row ids stay distinct in a suffix |
| EnviarDocumento.AllOthers | web/src/pages/EnviarDocumento.tsx:19 | with distinct ids no later row shares the first row's id |
| EnviarDocumento.RemovedExactlyOne | web/src/pages/EnviarDocumento.tsx:39-43 | with distinct ids removing a present row's id drops exactly one row |
| EnviarDocumento.SharedIdEmptiesList | web/src/pages/EnviarDocumento.tsx:39-43 | the length guard alone does not keep a row: two rows sharing an id are both removed |
| EnviarDocumento.SentRecord | web/src/pages/EnviarDocumento.tsx:61-69 | the sent record is a PDF exactly when the last extension is "pdf" in any case (never an image), is outside every folder and is marked "Enviado" |
| EnviarDocumento.SentPdfIffLibraryPdf | web/src/pages/EnviarDocumento.tsx:66 | sending and the library's upload agree on which files are PDFs |
| EnviarDocumento.SendingLeavesFolders | web/src/pages/EnviarDocumento.tsx:67-76 | a sent document changes the contents of no folder |
| EnviarDocumento.SendPage.constructor | web/src/pages/EnviarDocumento.tsx:11-19 | the page opens with one contracted party and the file handed over, if any |
| EnviarDocumento.SendPage.ChooseFile | web/src/pages/EnviarDocumento.tsx:29-33 | a chosen file replaces the current one and an empty choice keeps it |
| EnviarDocumento.SendPage.AddRecipient | web/src/pages/EnviarDocumento.tsx:35-37 | one blank witness is appended |
| EnviarDocumento.SendPage.RemoveRecipient | web/src/pages/EnviarDocumento.tsx:39-43 | the rows become the removal result and never run out while ids are distinct |
| EnviarDocumento.SendPage.UpdateRecipient | web/src/pages/EnviarDocumento.tsx:45-47 | the rows become the edit result |
| EnviarDocumento.SendPage.Submit | web/src/pages/EnviarDocumento.tsx:49-81 | without a file only the (translated or Portuguese) message is shown; with one the sent record goes in front of the stored documents, the sent message is shown and the page goes to /documentos |
| ModelosContrato.Filled | web/src/pages/ModelosContrato.tsx:79-107 | an empty or missing value shows the slot's placeholder; a present one is shown as typed, or in the browser's date format for a date slot |
| ModelosContrato.RenderSignature | web/src/pages/ModelosContrato.tsx:47-55 | a signature block carries its anchor, caption and width, and shows the name, or the role while the name is empty |
| ModelosContrato.Reference | web/src/pages/ModelosContrato.tsx:33 | the header reference is the first nine characters of the document hash (all of a shorter one) |
| ModelosContrato.Content | web/src/pages/ModelosContrato.tsx:27-55 | a filled contract has one text per slot and one block per signature, each filled from the form data, and carries the hash and its reference |
| ModelosContrato.Anchors | web/src/pages/ModelosContrato.tsx:47-49 | one anchor per signature block |
| ModelosContrato.ServicosChecked | web/src/pages/ModelosContrato.tsx:58-132 | the service contract has non-empty placeholders and roles and four distinct anchors |
| ModelosContrato.LocacaoResidencialChecked | web/src/pages/ModelosContrato.tsx:133-180 | the residential lease has non-empty placeholders and roles and two distinct anchors |
| ModelosContrato.NdaChecked | web/src/pages/ModelosContrato.tsx:181-224 | the confidentiality agreement has non-empty placeholders and roles and two distinct anchors |
| ModelosContrato.CompraVendaVeiculoChecked | web/src/pages/ModelosContrato.tsx:225-273 | the vehicle sale has non-empty placeholders and roles and two distinct anchors |
| ModelosContrato.TermoAdesaoChecked | web/src/pages/ModelosContrato.tsx:274-310 | the terms of adhesion have non-empty placeholders and roles and one anchor |
| ModelosContrato.TrabalhoChecked | web/src/pages/ModelosContrato.tsx:311-356 | the employment contract has non-empty placeholders and roles and two distinct anchors |
| ModelosContrato.MeiChecked | web/src/pages/ModelosContrato.tsx:357-396 | the MEI service contract has non-empty placeholders and roles and two distinct anchors |
| ModelosContrato.LocacaoComercialChecked | web/src/pages/ModelosContrato.tsx:397-444 | the commercial lease has non-empty placeholders and roles and two distinct anchors |
| ModelosContrato.DistratoChecked | web/src/pages/ModelosContrato.tsx:445-481 | the rescission has non-empty placeholders and roles and two distinct anchors |
| ModelosContrato.ImagemChecked | web/src/pages/ModelosContrato.tsx:482-520 | the image release has non-empty placeholders and roles and one anchor |
| ModelosContrato.TemplateChecked | web/src/pages/ModelosContrato.tsx:57-521 | every one of the ten templates passes those checks |
| ModelosContrato.AnchorsFixed | web/src/pages/ModelosContrato.tsx:111-112 | a filled contract carries its template's expected number of anchors, all distinct and the same whatever the form data and hash |
| ModelosContrato.NothingBlank | web/src/pages/ModelosContrato.tsx:79-112 | a filled contract never leaves a text or a signature line blank, provided dates never format to empty |
| ModelosContrato.Underscored | web/src/pages/ModelosContrato.tsx:542 | the result holds no white space, is no longer than the title, and a title without white space is kept |
| ModelosContrato.UnderscoredIdempotent | web/src/pages/ModelosContrato.tsx:542 | replacing the white space twice changes nothing more |
| ModelosContrato.UnderscoredCons | web/src/pages/ModelosContrato.tsx:542 | a character other than white space is kept in place |
| ModelosContrato.UnderscoredRun | web/src/pages/ModelosContrato.tsx:542 | a run of white space of any length becomes one underscore |
| ModelosContrato.DropRun | web/src/pages/ModelosContrato.tsx:542 | the whole run is consumed up to the next character that is not white space |
| ModelosContrato.TotalPages | web/src/pages/ModelosContrato.tsx:578 | the page count is zero only for no templates, and otherwise the least count whose pages of nine hold every template |
| ModelosContrato.Page | web/src/pages/ModelosContrato.tsx:579-580 | a page holds at most nine templates, and a page that starts inside the list is not empty |
| ModelosContrato.PagesNonEmpty | web/src/pages/ModelosContrato.tsx:578-580 | a page is non-empty exactly when it is numbered 1 to the page count |
| ModelosContrato.ItemOnItsPage | web/src/pages/ModelosContrato.tsx:578-580 | template i appears on page i / 9 + 1 at position i % 9 |
| ModelosContrato.TemplatePages | web/src/pages/ModelosContrato.tsx:57-580 | the ten templates take two pages, the second holding one |
| ModelosContrato.TemplatesPage.constructor | web/src/pages/ModelosContrato.tsx:19-25 | the page opens on page 1 with no template, no data and no hash |
| ModelosContrato.TemplatesPage.Choose | web/src/pages/ModelosContrato.tsx:600-604 | opening a template clears the form data and takes the new hash |
| ModelosContrato.TemplatesPage.Back | web/src/pages/ModelosContrato.tsx:677 | going back closes the template |
| ModelosContrato.TemplatesPage.InputChange | web/src/pages/ModelosContrato.tsx:523-525 | typing changes that key of the form data and no other |
| ModelosContrato.TemplatesPage.GoToPage | web/src/pages/ModelosContrato.tsx:582-586 | only an existing page can be selected, and the current page always exists |
| ModelosContrato.TemplatesPage.DownloadWord | web/src/pages/ModelosContrato.tsx:527-546 | with no open template nothing is exported; otherwise the filled contract is exported under the underscored title with ".doc" |
| ModelosContrato.TemplatesPage.SendForSignature | web/src/pages/ModelosContrato.tsx:552-575 | with no open template nothing happens; otherwise the filled contract as ".html" and the hash go to /enviar |
| Principal.NonBlankIffStripped | servidor/principal.py:200 | a text run counts exactly when its stripped text is non-empty |
| Principal.ScanMeaning | servidor/principal.py:197-219 | a page's scan records as lines the positions of the runs holding "___", in page order, and a position for a party exactly when some run is that party's label |
| Principal.ScanLines | servidor/principal.py:214-219 | the recorded signature lines are the positions of the line runs, in page order |
| Principal.LastLabelWins | servidor/principal.py:206-212 | a party's recorded position is that of the last run taken as its label, and there is none when no run is |
| Principal.Visitor.constructor | servidor/principal.py:197 | the visitor starts with nothing recorded |
| Principal.Visitor.Visit | servidor/principal.py:199-219 | one callback records a label (CONTRATANTE checked first) and, independently, a line, and nothing else |
| Principal.Visitor.Record | servidor/principal.py:206-219 | a run classified as a label overwrites that party's position, and a line run is appended to the lines |
| Principal.FindCoords | servidor/principal.py:192-228 | running the visitor over a page gives the scan of all its runs |
| Principal.SearchFloor | servidor/principal.py:473-475 | the search covers the last three pages, or all of a shorter document |
| Principal.SearchPages | servidor/principal.py:469-484 | the chosen page is the last page among the last three with any detection, with its detection; when none is found no searched page has one |
| Principal.ChosenPageUnique | servidor/principal.py:477-484 | at most one page is the chosen one |
| Principal.Chosen | servidor/principal.py:493-519 | the contratante goes 50 right and 10 above the highest line and the contratada above the second; a party without a line goes 40 right and 50 below its label, and otherwise has no position |
| Principal.LinesBeatLabels | servidor/principal.py:496-509 | with lines the contratante sits on a line no lower than any other, and with two the contratada on a line no higher than that |
| Principal.LabelsBeatDefaults | servidor/principal.py:511-519 | without lines each party sits below its label, if it has one |
| Principal.Final | servidor/principal.py:251-258 | a found position is used; otherwise a quarter or three quarters of the width across at mid-page less 50 on a new page, else 85 |
| Principal.DefaultsSideBySide | servidor/principal.py:251-258 | the default positions put the contratante left of the contratada at the same height |
| Principal.Place | servidor/principal.py:467-554 | nothing is drawn exactly when both names are empty and neither image is present and non-empty (`any([...])`, :467); otherwise the signatures go on the chosen page at the decided positions, or on an added page the size of the last page at the default positions when no searched page has a detection |
| Principal.Signatarios | servidor/principal.py:636-651 | the contratante, then the contratada, each recorded only when named, with the fixed e-mail and role |
| Principal.StripPadding | servidor/principal.py:697 | trailing '=' characters, and only they, are removed |
| Principal.Candidates | servidor/principal.py:694-699 | four names are tried, the code as given first |
| Principal.UrlSafe | servidor/principal.py:697 | each kept character is the code's own with '+' turned into '-' and '/' into '_', only trailing '=' characters are dropped, and the result has no '+' or '/' and does not end in '=' |
| Principal.TentarEncontrar | servidor/principal.py:692-708 | the first candidate whose metadata file exists is returned; none when no candidate has one |
| ApiIndex.PlanStatus | api/index.py:59 | the status is "ativo" exactly for the free plan and "trial" for every other plan name |
| ApiIndex.Trial | api/index.py:57-64 | a trial window opens exactly for the two paid plans and runs from now to thirty days on |
| ApiIndex.TrialMeansTrialStatus | api/index.py:59-64 | an account with a trial window has the trial status |
| ApiIndex.UnknownPlanTrialWithoutDates | api/index.py:59-64 | an unknown plan name is put on trial with no trial dates |
| ApiIndex.NewAccount | api/index.py:55-78 | the stored account copies the form, has the plan's status, is active, has trial dates exactly for a paid plan, thirty days apart, and is stamped with the creation instant |
| ApiIndex.Register | api/index.py:48-87 | a known e-mail is refused first, then a known CPF, both with 400 and the accounts unchanged; otherwise the account is appended and the answer carries the id, message, plan and status |
| ApiIndex.RegisterKeepsUnique | api/index.py:48-80 | registrations handled one at a time never let two accounts share an e-mail or a CPF |
| ApiIndex.SecondRegistrationRefused | api/index.py:49-50 | registering the same e-mail a second time is refused |
| ApiIndex.AccountStore.constructor | api/index.py:40-45 | the collection holds the given accounts |
| ApiIndex.AccountStore.CriarUsuario | api/index.py:47-87 | the answer and the new collection are those of a registration, a refusal changes nothing, and uniqueness is kept for requests handled one at a time |
| ApiIndex.Unescape | api/index.py:104 | turning escaped newlines into newlines never lengthens the text |
| ApiIndex.UnescapeLeavesNoEscape | api/index.py:104 | no backslash followed by "n" is left |
| ApiIndex.UnescapeFirst | api/index.py:104 | the unescaped text starts with "n" only when the original does |
| ApiIndex.UnescapePlain | api/index.py:104 | a value without backslashes is kept as it is |
| ApiIndex.UnescapePlainPrefix | api/index.py:104 | text without backslashes is copied as it is, and what follows it is unescaped on its own |
| ApiIndex.UnescapeEscaped | api/index.py:104 | a backslash followed by `n` becomes one newline character, the text before it kept and the text after it unescaped in turn |
| ApiIndex.ChooseKey | api/index.py:99-120 | a set, non-empty environment variable wins, unescaped; otherwise the key file when it exists; otherwise there is no key |
| Dashboard.IsoOfBrDate | web/src/pages/Dashboard.tsx:35-36 | a DD/MM/YYYY date is rewritten as YYYY-MM-DD |
| Dashboard.SplitBrDate | web/src/pages/Dashboard.tsx:35-36 | a DD/MM/YYYY date splits at '/' into day, month and year |
| Dashboard.ActivityOf | web/src/pages/Dashboard.tsx:40-47 | a row shows the document's name and date as completed at 00:00 by "Você", keyed by the id or, for an empty id, by its position |
| Dashboard.Newest | web/src/pages/Dashboard.tsx:33-38 | the sorted list holds exactly the listed documents and runs from the newest date to the oldest |
| Dashboard.Recent | web/src/pages/Dashboard.tsx:32-47 | at most five rows, row i showing the i-th document of the newest-first order |
| Dashboard.RecentNewestFirst | web/src/pages/Dashboard.tsx:33-38 | the rows run from the newest date to the oldest |
| Dashboard.RecentAreNewest | web/src/pages/Dashboard.tsx:33-39 | the shown and the left-out documents together are the listed ones, and none left out is newer than one shown |
| Dashboard.ShouldFetch | web/src/pages/Dashboard.tsx:13-56 | the listing is fetched exactly on the dashboard tab with a known e-mail |
| Dashboard.PlanLabel | web/src/pages/Dashboard.tsx:59-65 | the professional and business plans have their names, and any other stored plan (or none) shows the free plan |
| Dashboard.StatusLabel | web/src/pages/Dashboard.tsx:109-115 | the two known statuses show their translations and any other shows itself |
| Dashboard.StatusClass | web/src/pages/Dashboard.tsx:117-123 | success for completed, warning for waiting, the plain badge otherwise, each exactly |
| Dashboard.RecentRowsCompleted | web/src/pages/Dashboard.tsx:43-123 | every recent row shows the completed badge and label |
| Dashboard.Saved | web/src/pages/Dashboard.tsx:88-91 | a save stores the four profile values and leaves every other stored key alone |
| Dashboard.AccountForm.constructor | web/src/pages/Dashboard.tsx:16-21 | the form starts from the stored values, or placeholders where none is stored |
| Dashboard.AccountForm.HandleSave | web/src/pages/Dashboard.tsx:69-106 | without a user id only the error shows; otherwise one request with the form values is sent, and the values are stored with the success message only when it succeeds, the failure message otherwise |
| Dashboard.SaveKeepsUserId | web/src/pages/Dashboard.tsx:70-91 | a save keeps the stored user id, so the next save is sent too |
| DashboardLayout.StoredOr | web/src/components/DashboardLayout.tsx:22-31 | a stored value wins unless it is missing or empty, and the result is otherwise the fallback |
| DashboardLayout.IsActive | web/src/components/DashboardLayout.tsx:52-60 | the account entry is highlighted on its own route or whenever the query holds "tab=account"; every other entry exactly on its own route |
| DashboardLayout.AccountTabHighlightsTwo | web/src/components/DashboardLayout.tsx:52-60 | on the dashboard's account tab both the dashboard and the account entries are highlighted |
| DashboardLayout.OneRouteEntry | web/src/components/DashboardLayout.tsx:52-60 | apart from the account entry, no two entries are highlighted together |
| DashboardLayout.Avatar | web/src/components/DashboardLayout.tsx:214 | the avatar is the capitalised first character of the name, and nothing for an empty name |
| DashboardLayout.AvatarCapital | web/src/components/DashboardLayout.tsx:214 | a lower-case initial shows as its capital letter |
| DashboardLayout.Header.constructor | web/src/components/DashboardLayout.tsx:17-25 | the header shows the stored name, or "Usuário Sistema", and the name is never empty |
| DashboardLayout.Header.OnUserUpdated | web/src/components/DashboardLayout.tsx:27-34 | a non-empty stored name replaces the shown one, and the name stays non-empty |
| DashboardLayout.Header.Initial | web/src/components/DashboardLayout.tsx:214 | the header always has a one-letter avatar |
| Home.FieldName | web/src/pages/Home.tsx:87-118 | a party's name and image fields are named "nome_" and "img_" followed by the party |
| Home.RendersImageIffTrimmed | web/src/pages/Home.tsx:56 | an image is rendered from a typed name exactly when the trimmed name is non-empty |
| Home.PartyFields | web/src/pages/Home.tsx:86-120 | a party's name is sent exactly in text mode, and its image exactly when the typed name is not blank or, in drawing mode, when something was drawn, whatever the other party entered |
| Home.FieldsOfParty | web/src/pages/Home.tsx:92-104 | a party adds only its own name and image fields, under those same conditions |
| Home.HasFieldAppend | web/src/pages/Home.tsx:86-120 | a field is in an appended form exactly when it is in one of the parts |
| Home.ErrorMessage | web/src/pages/Home.tsx:140-145 | a network error shows the connection message with the certificate hint; another error with a response shows "Erro do servidor: " and the library's message, since the blob body has no `detail`; any other error shows the connection message |
| Home.ServerDetailNeverShown | web/src/pages/Home.tsx:122-144 | whatever the server's answer holds, the message shown is the same |
| Home.ServerDetailLost | web/src/pages/Home.tsx:122-144 | a 500 answer with a detail shows the status text instead of that detail, unlike the intended message |
| Home.ErrorMessageIntended | web/src/pages/Home.tsx:140-145 | the intended classification: the same three kinds, a server answer showing its detail after "Erro do servidor: " |
| Home.IntendedShowsDetail | web/src/pages/Home.tsx:144 | the intended message shows a non-empty server detail, and agrees with the page's message exactly when there is no detail or it equals the library's message |
| Home.ErrorKindsDiffer | web/src/pages/Home.tsx:140-145 | the three kinds of failure show three different messages |
| Home.SignPage.constructor | web/src/pages/Home.tsx:13-28 | the page opens with no file, the default font, both parties typing an empty name, and no error |
| Home.SignPage.SelecionarArquivo | web/src/pages/Home.tsx:30-36 | a reported file list makes its first file the document and clears the error; no list changes nothing |
| Home.SignPage.BuildForm | web/src/pages/Home.tsx:81-120 | no form without a file; otherwise the file, the font, then each party's fields in order |
| Home.SignPage.AssinarDocumento | web/src/pages/Home.tsx:80-150 | without a file nothing happens; a signed answer opens /sucesso and a failure shows its message, and loading ends either way |
| Home.CloseAt | web/src/pages/Home.tsx:44 | the found ';' is the first one after the start with no line break before it |
| Home.CloseAtPlain | web/src/pages/Home.tsx:44 | a group free of ';' and line breaks ends at the ';' that follows it |
| Home.MimeOfDataUrl | web/src/pages/Home.tsx:43-45 | the MIME type of "data:<type>;base64,<payload>" is <type> when the type holds no ':', ';', ',' or line break |
| Home.HeaderOfDataUrl | web/src/pages/Home.tsx:43 | the header of such a URL is everything before its first ',' |
| Home.NoColonNoMatch | web/src/pages/Home.tsx:44-45 | a header without ':' has no match, so the type falls back to image/png |
| Home.FillBytes | web/src/pages/Home.tsx:46-49 | each byte is the character code of the decoded character modulo 256 |
| Home.DataUrlToBlob | web/src/pages/Home.tsx:42-51 | there is no blob without a ','; otherwise its bytes are those of the decoded payload and its type is that of the header |
| Validacao.Remainder | web/src/pages/Validacao.tsx:10 | on a /validar/ path the code is the decoded rest of the path, and on any other path it is empty |
| Validacao.Hash | web/src/pages/Validacao.tsx:11 | the route parameter wins when non-empty, then the query value, then the path remainder |
| Validacao.HashEmptyIff | web/src/pages/Validacao.tsx:11 | the code is empty exactly when every source is missing or empty |
| Validacao.Request | web/src/pages/Validacao.tsx:17-19 | no request is made for an empty code; otherwise the data address of that code is fetched |
| Validacao.ScreenAfter | web/src/pages/Validacao.tsx:17-62 | the loading text stays exactly when the code is empty; otherwise the data is shown exactly when the answer succeeded with a non-empty body, and the not-found text appears otherwise |
| Validacao.BareValidarStaysLoading | web/src/pages/Validacao.tsx:10-54 | a page opened on /validar/ with no code anywhere never leaves the loading text |
| Validacao.FileName | web/src/pages/Validacao.tsx:38-47 | a saved file is named `documento_`, the kind's word and `_`, then exactly the first six characters of the code (all of a shorter one), then ".pdf" |
| Validacao.Download | web/src/pages/Validacao.tsx:35-47 | each button's address lies under the validation address and ends with the whole code, and it saves under its kind's file name |
| Validacao.LinksDiffer | web/src/pages/Validacao.tsx:37-47 | the two downloads never point at the same address nor save under the same name |
| Validacao.SameNameIff | web/src/pages/Validacao.tsx:38-47 | two codes save under the same name exactly when their first six characters (whole codes when shorter) agree |

## Left out

- Floating point: the Pix amount is integer cents rendered with two decimals, and the annual price, the file-size text and the megabyte size are not modelled.
- Clock, ids and randomness are parameters: `Date.now()`, `crypto.randomUUID()`, `uuid4`, `Math.random` document hashes, `toLocaleDateString` and `datetime.utcnow`. Registration stamps the trial start, creation and update instants with one clock reading, where the source reads the clock three times for a paid plan (api/index.py:62, 76 and 77) and twice for any other plan.
- Browser date parsing (`new Date(iso).getTime()`) is a parameter of the recent-activity sort. Dates that parse to NaN, which make the comparator inconsistent, are not modelled.
- Network, storage and library calls are parameters or outcome values: axios requests and their answers, MongoDB lookups and inserts, file existence, `atob`, `decodeURIComponent`, `urllib.parse.unquote`, SHA-256 and PEM key loading.
- Text: case mapping is ASCII only, and characters are Unicode code points, not UTF-16 units.
- Canvas rasterisation is modelled only by whether it yields an image: a typed name yields one exactly when it is not blank, and a drawing when the pad is not empty.
- PDF extraction, rendering and merging, QR codes, RSA-PSS signatures and certificate generation are not modelled. The extractor is the sequence of text runs it reports, and an extraction failure is not modelled.
- Principal.Chosen: the in-place `linhas.sort` is modelled on values, as a stable descending sort of the recorded lines.
- Principal.TentarEncontrar: returns the candidate name rather than the joined metadata path; `exists_` is the file test on that path.
- Timers are collapsed: the three-second clearing of the dashboard's save message and the delayed navigations happen at once or not at all.
- Markup, styling, modals, menus, the language switcher, the preview and form-response views, and the validation page's data display are not modelled.
- Translations are inputs. Each page receives the translated texts it shows, and a missing translation falls back as the source writes it.
- MeusDocumentos.Library.constructor: the stored or seed lists are inputs. The seed documents and the illustrative audit log are not modelled.
- MeusDocumentos.Library.Upload: choosing no file, a no-op in the source, is not modelled.
- CriarFormulario.WithOptionText: an index past the end leaves the options unchanged, where JavaScript would extend the array with holes. The page only offers existing indices.
- CriarFormulario.Edited: models the three keys the page edits (label, type, required), not an arbitrary key.
- Pagamento.PaymentPage.Pix: the amount in the PIX request is a floating-point price and is not part of the request model.
- Dashboard.AccountForm.HandleSave: the `isSaving` flag, which is set and cleared within the call, and the `userUpdated` event are not modelled; the event's effect is `DashboardLayout.Header.OnUserUpdated`.
- ApiIndex.AccountStore.CriarUsuario: requests are handled one at a time. Both the e-mail and the CPF lookups are awaited before the insert, so two interleaved requests with the same e-mail or CPF can both pass them. The database's unique indexes then fail the second insert with a server error rather than the 400 refusal; that interleaving is not modelled.
- ApiIndex.Register: the form is the request body after the web framework has validated it. A malformed e-mail is refused with 422 before the handler runs (`EmailStr`, api/index.py:42), and an accepted address is normalised by the e-mail validator before the lookups; the model compares e-mails exactly as given.
- PixUtils.GerarPayloadPix: the txid has no default in the model; both callers pass one (api/index.py:186, servidor/principal.py:340), and the default "***" appears only as PixUtils.DefaultTxid.
- Home.SignPage.AssinarDocumento: the PDF blob URL passed to the success page is not modelled.
- The contract prose and HTML around the slots and signature blocks is not modelled. A contract is its reference, hash, slot texts and signature blocks.

## Findings

| source | as written | input that shows it | evidently intended | confidence | as-written member | corrected member |
|---|---|---|---|---|---|---|
| api/pix_utils.py:41 | the field-26 length counts `str(len(chave))`, unpadded, although the key length is written with two digits | a key of fewer than 10 characters, e.g. a 9-character key: the declared length is one less than the content | the length of the content as emitted, with the key length zero-padded | not executed | PixUtils.MerchantLengthCorrectIff | PixUtils.CorrectedPayloadDecodes |
| api/pix_utils.py:48 | the txid sub-field "05" always declares length "03" | the 20-character txid the server passes (servidor/principal.py:340): the sub-field does not read back as that txid; only the three-character default "***" of api/pix_utils.py:19 fits (PixUtils.DefaultTxidFramed) | a two-digit length equal to the txid's length | not executed | PixUtils.ServerTxidMisframed | PixUtils.TxidSubfieldCorrected |
| web/src/pages/Pagamento.tsx:46-50 | the plan is accepted when `PLAN_CONFIG[name]` is truthy, and an object literal also answers the names it inherits | a stored plan "constructor" (or "toString") and no navigation plan: the lookup yields a function, so the page takes it as its plan, and the render then throws at Pagamento.tsx:82 reading `currentPlan.price.replace`, without opening the page or going to /login | accept only the table's own keys, so an unknown stored plan goes to /login | not executed | Pagamento.InheritedPlanCrashes | Pagamento.OpeningIntended |
| web/src/pages/Home.tsx:144 | the message reads `err.response.data.detail`, but the request asks for a blob (Home.tsx:124), so an error body is a Blob with no `detail` | a 500 answer with detail "EOF marker not found": the page shows "Erro do servidor: Request failed with status code 500" | show the server's `detail` read from the body | not executed | Home.ServerDetailLost | Home.IntendedShowsDetail |
