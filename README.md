# Certificate generator: a Dafny model of its decision logic

The certificate generator is a React single-page tool. A user signs in against one
locally stored credential. On the home page the user fills in seven certificate
fields, clicks Generate to show a styled certificate, and clicks Download to save it
as `certificate.png`. This project models the three pieces of that tool that make
decisions, and proves properties of them:

- the **style resolver** `getCertificateDesign`: a total map from the certificate
  type to a style record (title, four colour classes, icon). Module `StyleResolver`.
- the **generator component**: its form record and `showCertificate` flag, the
  handlers `handleChange`, `handleGenerateCertificate` and the guard and 2x sizing
  of `handleDownloadCertificate`, and the certificate's content. Modules
  `CertificateForm` (the record), `CertificateLayout` (the content) and `Generator`
  (the handlers). The handlers are pure transition functions on a `Screen` value.
  The class `Generator.CertificateGenerator` implements them by updating its two
  fields in place. Sequences of user events are run by `Generator.Run`.
- the **login check** in `handleSubmit`. Module `Login`, with the class
  `Login.LoginPage` holding the two-field form.

Effects that the browser carries out are outcome values: `Alert(message)`,
`ExportPng(width, height, fileName)` and `Navigate(path)`.

Facts about the code that shape the model:

- The Generate guard at `CertificateGenerator.jsx:29` rejects an empty certificate
  type, like any other empty field. So the Achievement fallback is shown for `""`
  only when the type is cleared *after* a successful generation. The flag is never
  lowered, so the certificate stays on screen (`Generator.ClearedTypeStillShown`).
- Four of the ten drop-down options ("Creativity", "Mentorship", "Volunteerism",
  "Outstanding Performance") have no case of their own and fall to the gray
  Achievement default. That makes seven profiles: six cased labels plus the default.
- `GetCertificateDesign` is a `match` on the type string, like the `switch` at
  `CertificateGenerator.jsx:73`.
- The Download button is rendered only while `showCertificate` holds
  (`CertificateGenerator.jsx:295-302`). The model still lets a `DownloadClick` event happen while the
  certificate is hidden, and models the "Certificate element not found." branch of
  the handler for it. This is an over-approximation of what a user can click.

Icons are opaque constants holding the emoji code points that the mis-encoded
glyphs of the source stand for. The colour classes are spelled through small
builders (`Border("blue")` is `"border-blue-600"`). Each builder yields exactly the
class string of the source's table.

## Model

| member | source | states |
|---|---|---|
| `StyleResolver.GetCertificateDesign` | certificate-generator/src/components/CertificateGenerator.jsx:72-138 | Total on every string. A label with a case of its own (Course Completion, Participation, Excellence, Leadership, Innovation, Teamwork) gets the title "Certificate of " followed by that label. Every other string, `""` included, gets the Achievement profile. |
| `StyleResolver.SingleColourFamily` | certificate-generator/src/components/CertificateGenerator.jsx:75-136 | In every profile, the background gradient, border, text and ribbon classes are shades of one colour family. |
| `StyleResolver.FamilyIsUnique` | certificate-generator/src/components/CertificateGenerator.jsx:75-136 | The colour family of a profile is determined by its classes. |
| `StyleResolver.ProfileIdentifiesLabel` | certificate-generator/src/components/CertificateGenerator.jsx:74-136 | For each cased label and for `""`, the profile's colour family and its icon each identify the label. |
| `StyleResolver.DistinctProfiles` | certificate-generator/src/components/CertificateGenerator.jsx:74-136 | Two different labels, each cased or `""`, never share a colour family or an icon. |
| `StyleResolver.ExcellenceProfile` | certificate-generator/src/components/CertificateGenerator.jsx:92-100 | Excellence gets the title "Certificate of Excellence", the yellow palette and the trophy icon. |
| `StyleResolver.UnmappedOptionsFallBack` | certificate-generator/src/components/CertificateGenerator.jsx:128-136 | The four drop-down options without a case, and the empty selection, get the gray Achievement profile. |
| `CertificateForm.SetField` | certificate-generator/src/components/CertificateGenerator.jsx:17-19 | Replacing a field gives it the new value and leaves the other six fields as they were. |
| `CertificateForm.AllFilledIffEveryField` | certificate-generator/src/components/CertificateGenerator.jsx:22-30 | The Generate guard passes exactly when none of the seven fields is empty. |
| `CertificateLayout.RenderedText` | certificate-generator/src/components/CertificateGenerator.jsx:259-290 | The certificate is nine lines in document order. Only the next-to-last is the signature and issue date side by side, and only the last is the icon badge. |
| `CertificateLayout.ReadBackRendered` | certificate-generator/src/components/CertificateGenerator.jsx:259-290 | Reading the content back gives the title, name, type, completion date, issuer, signature, issue date and icon, each from its own line and in that order. |
| `CertificateLayout.ReadBackOnlyRendered` | certificate-generator/src/components/CertificateGenerator.jsx:259-290 | Content that reads back is the rendering of some form and style that display exactly what was read. |
| `CertificateLayout.RenderedTextDeterminesShown` | certificate-generator/src/components/CertificateGenerator.jsx:259-290 | Two certificates with the same content display the same eight values. |
| `CertificateLayout.EmailNotRendered` | certificate-generator/src/components/CertificateGenerator.jsx:259-290 | The e-mail address is never part of the certificate's content. |
| `Generator.Edit` | certificate-generator/src/components/CertificateGenerator.jsx:17-19 | handleChange sets the named field, leaves the other six fields and the flag unchanged, and raises no alert. |
| `Generator.Generate` | certificate-generator/src/components/CertificateGenerator.jsx:21-35 | The form is unchanged. The flag becomes old flag or all-fields-filled. The "Please fill out all fields." alert is raised exactly when a field is empty; otherwise there is no effect. |
| `Generator.Download` | certificate-generator/src/components/CertificateGenerator.jsx:37-61 | The state is unchanged. An export happens exactly when the certificate is shown. Otherwise the "Certificate element not found." alert is raised. An export is twice the box's width and height, saved as certificate.png. |
| `Generator.ShowCertificateIsMonotone` | certificate-generator/src/components/CertificateGenerator.jsx:15-35 | Once shown, the certificate stays shown after any sequence of events. |
| `Generator.ShownOnlyAfterValidGenerate` | certificate-generator/src/components/CertificateGenerator.jsx:21-35 | If a run starts hidden and ends shown, it contains a Generate click at a point where all seven fields were filled. |
| `Generator.OnlyChangesEditTheForm` | certificate-generator/src/components/CertificateGenerator.jsx:17-43 | Generate and Download clicks never change the form record. |
| `Generator.View` | certificate-generator/src/components/CertificateGenerator.jsx:248-292 | The certificate is displayed exactly when the flag is set. Its content reads back to the form's values and the title and icon resolved from the form's type. |
| `Generator.ClearedTypeStillShown` | certificate-generator/src/components/CertificateGenerator.jsx:17-35 | After a successful Generate, setting the type back to "" keeps the certificate shown, now under the Achievement profile. |
| `Generator.CertificateGenerator.constructor` | certificate-generator/src/components/CertificateGenerator.jsx:6-15 | Starts with all seven fields empty and the certificate hidden. |
| `Generator.CertificateGenerator.HandleChange` | certificate-generator/src/components/CertificateGenerator.jsx:17-19 | The new form is the old one with the named field replaced. The flag is unchanged. This agrees with `Generator.Edit`. |
| `Generator.CertificateGenerator.HandleGenerateCertificate` | certificate-generator/src/components/CertificateGenerator.jsx:21-35 | The form is unchanged and the flag becomes old flag or all-fields-filled. An alert is returned exactly on an empty field. This agrees with `Generator.Generate`. |
| `Generator.CertificateGenerator.HandleDownloadCertificate` | certificate-generator/src/components/CertificateGenerator.jsx:37-61 | Nothing is modified. Before generation it returns the not-found alert; after generation, a 2x export named certificate.png. This agrees with `Generator.Download`. |
| `Login.SetLoginField` | certificate-generator/src/pages/Login.jsx:11-13 | Only the named field (email or password) changes. |
| `Login.Submit` | certificate-generator/src/pages/Login.jsx:15-23 | Navigates to /home exactly when a user is stored and both its e-mail and password equal the submitted ones. Otherwise it raises the "Invalid email or password" alert. The case where stored data fails to parse is listed under Left out. |
| `Login.NoStoredUserNeverNavigates` | certificate-generator/src/pages/Login.jsx:17-21 | With no stored user, every submission gets the invalid-credentials alert. |
| `Login.HalfMatchIsRefused` | certificate-generator/src/pages/Login.jsx:18-21 | A right e-mail with a wrong password, or the reverse, is refused. |
| `Login.LoginPage.constructor` | certificate-generator/src/pages/Login.jsx:5-8 | Starts with an empty e-mail and password. |
| `Login.LoginPage.HandleChange` | certificate-generator/src/pages/Login.jsx:11-13 | The form becomes the old one with the named field replaced. |
| `Login.LoginPage.HandleSubmit` | certificate-generator/src/pages/Login.jsx:15-23 | Navigates to /home exactly on a full match, otherwise alerts. It modifies nothing, so the credential store is only read. This agrees with `Login.Submit`. |

## Left out

- Rasterisation and PNG encoding by `dom-to-image` are not modelled: this is a foreign library call. The same goes for its quality, background and transform options, and the asynchronous `then`/`catch` chain with its failure alert and console log. The model stops at the export request (size and file name).
- Creating, clicking and removing the download link, `alert`, and `console.error` are browser I/O. They appear only as outcome values.
- `localStorage.getItem('user')` and `JSON.parse` are browser storage and foreign data. The stored record is an `Option<Credential>` parameter. JavaScript truthiness of odd stored values (for example a stored `0`) is not modelled. Neither is a stored value that is not valid JSON: there `JSON.parse` throws, and `handleSubmit` then neither navigates nor alerts.
- Field names come from the form's inputs, so they are modelled as an enumeration of the seven (login: two) input names. An event carrying any other name, which would add a new key to the record, is not modelled.
- The box's `offsetWidth` and `offsetHeight` are DOM measurements. They are parameters of the download event.
- Tailwind styling, JSX layout, the ribbons and the badge's corner position are not modelled. Only the content lines (the text and the icon glyph) and their document order are.
- `App.jsx`, the route table handed to the router library, is not part of this model. `Home.jsx` is a page shell with no logic, and `Registration.jsx` is not part of this model.
- Plain-text password storage and comparison are a design weakness, not behaviour to verify.
