# UPI payment-link generator — Dafny model

The repository is a single Next.js page that turns a small payment form into a
`upi://pay` deep link, the link format that UPI payment apps open, and shows it
as a QR code. This project models the page's logic:

- the link template of the submit handler (`UpiLink.BuildLink`). The UPI id,
  the sender name and the amount are pasted verbatim into
  `upi://pay?pa=<upiId>&pn=<senderName>&mc=&tid=&tr=&tn=&am=<amount>&cu=INR`.
  Nothing is escaped and the message input is never emitted;
- a reference reader of that link (`UpiLink.ParseLink`). It is the partner
  the template is proved against: a link built from values without `&`
  reads back to exactly those values, and every link it accepts is exactly
  the built link;
- the lowercasing that the UPI id input applies on every keystroke
  (`Lowercase.ToLower`, ASCII only);
- the page state (`HomePage.Page`): the nullable `link`, the four form values
  starting at their defaults, and the operations that act on them. These are
  typing into an input, submitting (validated by the form schema's one rule,
  a non-empty UPI id), resetting, and copying the link.

Files: `wrappers.dfy` (Option and Result), `upi_link.dfy`, `lowercase.dfy`,
`home_page.dfy`. `HomePage.Session` is a client of the page class. It goes
through the defaults, a case-normalised id, a rejected submission, a copy and a
reset, and the verifier checks the expected link or state at each step.

Note that:
- The UPI id is lowercased only by the input handler. The submit handler does
  not lowercase, so the link holds the stored form value as it is.
- Reset returns the form to its defaults (`someone@okaxis`, `""`, `""`, `"399"`),
  not to empty strings.
- The page's code never checks the amount. The amount input is a number input
  with `min={0}` and the default step of 1, and the form does not turn off the
  browser's own validation. So the browser stops a negative, fractional or
  malformed amount from being submitted before the submit handler runs.
- A failed clipboard write is not reported: the code only handles success.

## Model

| member | source | states |
|---|---|---|
| UpiLink.BuildLink | src/app/page.tsx:74 | The template with the UPI id, the sender name and the amount pasted in verbatim. The link begins with `upi://pay?pa=` and the id, and its length is the template's fixed text plus the three values. |
| UpiLink.BuildLinkShape | src/app/page.tsx:74 | After the prefix and the UPI id come `&pn=` and the name, then `&mc=&tid=&tr=&tn=&am=` (four empty keys, in order), then the amount and `&cu=INR` at the end. |
| UpiLink.ParseBuildLink | src/app/page.tsx:74 | A link built from values that contain no `&` reads back to exactly those three values. |
| UpiLink.BuildParsedLink | src/app/page.tsx:74 | Any string the reader accepts is exactly the link the template builds from the values it read. |
| UpiLink.BuildLinkInjective | src/app/page.tsx:74 | For values without `&`, two different (id, name, amount) triples give two different links. |
| UpiLink.AmpersandCollision | src/app/page.tsx:74 | Because nothing is escaped, id `u&pn=n` with an empty name gives the same link as id `u` with name `n&pn=`, for all u, n and amounts. |
| Lowercase.LowerChar | src/app/page.tsx:69 | An ASCII capital maps to its lower-case letter (code point + 32). Every other character is kept. No capital remains. |
| Lowercase.ToLower | src/app/page.tsx:68-69 | The handler keeps the length, lowercases each character on its own, and leaves no upper-case ASCII letter. |
| Lowercase.ToLowerKeepsLower | src/app/page.tsx:68-69 | A value with no capital letter passes through the handler unchanged. |
| Lowercase.ToLowerIdempotent | src/app/page.tsx:68-69 | Applying the handler twice gives the same value as applying it once. |
| HomePage.Build | src/app/page.tsx:71-76 | Submitting fails with the schema's error exactly when the UPI id is empty. Otherwise it gives the template link of the id, name and amount. |
| HomePage.BuildIgnoresMessage | src/app/page.tsx:72-75 | Two forms that differ only in the message give the same outcome. |
| HomePage.BuildDefaults | src/app/page.tsx:37-42 | The untouched form submits to `upi://pay?pa=someone@okaxis&pn=&mc=&tid=&tr=&tn=&am=399&cu=INR`. |
| HomePage.Page.constructor | src/app/page.tsx:31-43 | A new page has no link, and the form holds the defaults. |
| HomePage.Page.Input | src/app/page.tsx:68-69 | Typing into the UPI id input stores the lowercased text. The other inputs store the text verbatim. Only that field changes, and the link does not. The stored UPI id never holds a capital letter. |
| HomePage.Page.Submit | src/app/page.tsx:71-76 | With an empty UPI id, the error is returned and the link stays as it was, null or an earlier link. Otherwise the link becomes the built link. The form is unchanged. A displayed link always comes from an accepted submission, and its id has no capital letter. |
| HomePage.Page.Reset | src/app/page.tsx:63-66 | Afterwards the link is null and the form holds the defaults, both at once. |
| HomePage.Page.Copy | src/app/page.tsx:78-84 | Copying happens only when the link is set and non-empty, as the truthiness test does. A displayed link is never empty, so the copied text is exactly the link, or nothing without one. No state changes. |

## Left out

- QR rendering through the `QRCodeCanvas` component: a foreign library that produces a raster image.
- The PNG download (`canvas.toDataURL`, anchor creation, `payment-qr.png`): browser DOM and file I/O.
- The clipboard write and the `alert` after it are asynchronous platform I/O. Copy is modelled as the text handed to the clipboard.
- The effect that copies the canvas image into `qrImgSrc` when the link changes: framework reactivity tied to canvas mounting. Whether the image can be stale is not modelled.
- zod and react-hook-form internals. Only the non-empty UPI id rule is kept, and an input's value is taken as what the form stores for it.
- Lowercase.ToLower: maps only ASCII `A`-`Z`. JavaScript's `toLowerCase` applies full Unicode case mapping, which is not modelled.
- HomePage.Page.Input: assumes the lowercasing handler runs before the form library records the typed value. That ordering is React's event dispatch, which is not part of this model.
- Optional form fields left `undefined` (which a template literal renders as the text `undefined`): every field is modelled as a string, matching the `""` defaults.
- HomePage.Build, HomePage.Page.Submit: accept any amount string. The browser's validation of the amount input, which runs before the submit handler, is not modelled.
- JSX layout, labels, buttons and icons: presentation only.
