# seedream-v4-volcengine-mcp: dimension resolution and request building

This project models the deterministic core of the SeedDream 4.0 image-generation
tool server (`index.ts`):

- `getDimensions`, which resolves an aspect-ratio token (`"1:1"`, `"3:4"`,
  `"4:3"`, `"16:9"`, `"9:16"`, `"2:3"`, `"3:2"`, `"21:9"` or `"custom"`), a size
  preset (`"small"`, `"big"`, anything else meaning one megapixel) and optional
  custom width/height into a pixel pair, or into one of its three errors;
- the front half of `generateImage`: the API-key check, the argument defaults
  (`16:9`, `regular`, guidance 2.5, one image), the range checks on
  `guidance_scale` and `num_images`, the `"<width>x<height>"` size token, the
  request body with its conditional `n` and `seed` properties, and the check of
  the API's reply.

Modules:

- `Wrappers` (wrappers.dfy): `Option` (an absent JavaScript property) and `Result` (a thrown error).
- `Rounding` (rounding.dfy): `Math.round(a / b)` for non-negative quotients,
  `Math.round(Math.sqrt(num / den))` over the exact reals, and the integer
  square root behind it.
- `DimensionResolver` (dimensions.dfy): the ratio table, `GetDimensions` and its properties.
- `SizeToken` (size_token.dfy): the decimal size token and a decoder that reads it back.
- `Generation` (generation.dfy): the arguments, the request, the reply and `generateImage` up to its text report.

Arithmetic is exact. `Math.round` on a positive quotient a/b is
`(2a + b) / (2b)` in integer division, and is proved equal to
`floor(a/b + 1/2)` over the reals. The rounded square root is characterised as
the unique n with `(2n - 1)^2 * den <= 4 * num < (2n + 1)^2 * den`; for the
eight ratios the exact results are tabulated. None of the eight square roots
lies within 0.05 of a half-integer, far beyond double-precision error, so
floating point cannot change them; the one exact tie, `1182 * 3 / 4 = 886.5`,
is exactly representable as a double and rounds up in both readings.

The HTTP call is a parameter: `Generation.GenerateImage` takes the reply the
API sent. The API key is a parameter instead of an environment variable.

Three behaviours of `index.ts` are easy to miss and are modelled as the code
has them: any size string other than `"small"` and `"big"` is treated as one
megapixel; a custom side of 0 is reported as missing, not as out of range; and
the guidance scale is validated but never sent in the request.

## Model

| member | source | states |
|---|---|---|
| `Rounding.RoundDiv` | index.ts:82-98 | `Math.round(a / b)`: the result r satisfies b(2r-1) <= 2a < b(2r+1), so a/b lies within half a unit of r, a tie going up |
| `Rounding.RoundDivIsMathRound` | index.ts:82-98 | the integer rounding equals `floor(a/b + 0.5)` on the exact real quotient, which is JavaScript's `Math.round` |
| `Rounding.RoundDivUnique` | index.ts:82-98 | the half-unit bracket determines the rounded quotient uniquely |
| `Rounding.ISqrt` | index.ts:97 | the integer square root r of x: r² <= x < (r+1)² |
| `Rounding.RoundSqrtDiv` | index.ts:97 | `Math.round(Math.sqrt(num / den))`: the result n satisfies (n-½)² <= num/den < (n+½)² (lower bound dropped for n = 0) |
| `Rounding.NearestSqrtUnique` | index.ts:97 | any n in that bracket is the rounded square root, so the bracket is an exact specification |
| `DimensionResolver.SmallDimensions` | index.ts:78-85 | for "small" the shorter side is exactly 512 |
| `DimensionResolver.BigDimensions` | index.ts:86-93 | for "big" the longer side is exactly 2048 |
| `DimensionResolver.RegularDimensions` | index.ts:94-100 | one megapixel: width is the integer nearest to √(1048576·w/h), height the integer nearest to width·h/w |
| `DimensionResolver.GetDimensions` | index.ts:42-101 | results are positive; "custom" succeeds iff both sides are present and in [512, 2048] and then returns them; "custom" reports missing dimensions iff a side is undefined or 0; "custom" with both sides truthy but one outside [512, 2048] fails with the out-of-range error; any other token succeeds iff it is one of the eight ratios, else fails with `Invalid aspect ratio` carrying the token |
| `DimensionResolver.ErrorMessage` | index.ts:51-73 | the thrown text starts with "Invalid aspect ratio: " exactly for the unknown-ratio error, and the rest of it is the given token |
| `DimensionResolver.ErrorMessageInjective` | index.ts:51-73 | the three error texts are pairwise distinct, and unknown-ratio texts differ for different tokens |
| `DimensionResolver.CustomIsExact` | index.ts:49-56 | an in-range custom pair is returned unchanged whatever the size preset |
| `DimensionResolver.SmallPinsShortSide` | index.ts:78-85 | "small" on a known ratio succeeds, min(width, height) = 512, the long side is 512·long/short rounded |
| `DimensionResolver.BigPinsLongSide` | index.ts:86-93 | "big" on a known ratio succeeds, max(width, height) = 2048, the short side is 2048·short/long rounded |
| `DimensionResolver.OtherSizesAreRegular` | index.ts:94-100 | every size string other than "small"/"big" gives the same result as "regular", with width nearest to √(1048576·w/h) and height nearest to width·h/w |
| `DimensionResolver.RegularIs` | index.ts:94-100 | a pair meeting both rounding brackets is the one-megapixel result |
| `DimensionResolver.RegularTable` | index.ts:60-100 | the one-megapixel sizes of the eight ratios: 1024×1024, 887×1183, 1182×887, 1365×768, 768×1365, 836×1254, 1254×836, 1564×670 |
| `DimensionResolver.RegularAreaNearTarget` | index.ts:94-100 | the one-megapixel preset is within one pixel per side of 1048576 px²: (w-1)(h-1) <= 1048576 <= (w+1)(h+1) |
| `DimensionResolver.AspectRatioKept` | index.ts:76-100 | for every preset, 2·\|width·h − height·w\| <= max(w, h): the pair keeps the ratio up to the rounding of the derived side |
| `DimensionResolver.RegularExamples` | index.ts:94-100 | "1:1" gives 1024×1024 and "16:9" gives 1365×768 |
| `DimensionResolver.SmallAndCustomExamples` | index.ts:49-85 | "16:9" small is 910×512, "1:1" small is 512×512, custom 600×3000 is out of range, custom width 0 is missing |
| `SizeToken.Decimal` | index.ts:159 | the decimal form of a number: at least one digit, all digits, no leading zero |
| `SizeToken.DecimalRoundTrip` | index.ts:159 | reading the decimal form back gives the number |
| `SizeToken.DecimalOfValue` | index.ts:159 | a digit string without leading zeros is the decimal form of its value, so the decimal form is the only such spelling |
| `SizeToken.Format` | index.ts:159 | the `"WxH"` token decodes back to exactly the pixel pair it was made from; the decoder accepts only canonical decimals (no leading zeros) |
| `SizeToken.ParseOnlyFormat` | index.ts:159 | every string the decoder accepts is exactly the token of the pair it decodes to, so decoding is the inverse of the token format |
| `SizeToken.FormatInjective` | index.ts:159 | distinct pixel pairs give distinct size tokens |
| `Generation.BuildRequest` | index.ts:170-186 | the request's size token decodes to the dimensions; `n` is present iff more than one image is asked for, and then equals the count; `seed` is passed through exactly (0 included); model, prompt and the fixed options "disabled", no stream, "url", watermark |
| `Generation.PrepareRequest` | index.ts:104-186 | missing/empty key fails first; then guidance outside [1.0, 10.0]; then an image count outside [1, 4]; then a dimension error is passed on; success iff all four checks pass, and the request is then exactly `BuildRequest` of the prompt, the resolved dimensions, the image count and the seed |
| `Generation.DefaultRequest` | index.ts:128-186 | with only a prompt, the request is size "1365x768" with neither `n` nor `seed` |
| `Generation.GuidanceScaleNotSent` | index.ts:134-186 | changing an accepted guidance scale to another accepted value leaves the request unchanged |
| `Generation.CheckResponse` | index.ts:200-202 | the reply fails iff it has an error object or no `data`; the message is the API's when non-empty, else "Image generation failed"; an empty `data` list succeeds |
| `Generation.GenerateImage` | index.ts:104-247 | a preparation error is returned as is and the reply is not consulted; otherwise success iff the reply passes the check, returning its images; a reply failure is reported as "Failed to generate image: " followed by the reply check's message |

## Left out

- The MCP server, the tool listing and the call dispatcher (index.ts:252-346), including its `prompt is required` check: protocol plumbing over an SDK that is not part of this model.
- The axios POST, its two-minute timeout, and the remapping of axios errors with or without a response (index.ts:188-198, 230-242): the network call is replaced by its reply, given as a parameter.
- The API endpoint and key taken from environment variables (index.ts:14-15): the key is a parameter of `Generation.PrepareRequest`.
- Console logging and the emoji text report (index.ts:161-167, 204-224): cosmetic output. In it, a seed of 0 is sent (index.ts:184) but not printed (index.ts:212), because the report tests the seed for truthiness.
- Signal handling and `main` (index.ts:348-378); test-server.js and get-path.js, which only start a process or print a path.
- Batch generation, reference images and saving images to disk: no such code exists in index.ts.
- JavaScript numbers that are not integers: custom width/height, `num_images` and `seed` are integers here, and the guidance scale is an exact real. NaN, infinities, fractional counts and non-number JSON values are not modelled (in the source a NaN guidance scale passes both range comparisons).
- The double-precision arithmetic of `getDimensions` (index.ts:82-98): the quotients inside `Math.round(a / b)`, `1048576 * w / h` and `Math.sqrt` are taken over the exact reals, so double rounding is not modelled; for the eight table ratios the two agree.
- DimensionResolver.GetDimensions: an aspect-ratio token naming an inherited object property (such as "constructor" or "toString") reaches the destructuring of a non-array in the source and throws a TypeError; the model reports every unknown token as `Invalid aspect ratio`.
- SizeToken.Decimal: JavaScript writes numbers of 10^21 and above in exponent notation; resolved sides never exceed 2048, so only plain decimal is modelled.
