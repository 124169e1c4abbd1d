# LearnHub front end: routing, sign-in and sign-up forms

This project models the logic at the core of the LearnHub web client:

- **App** (`app.dfy`): the session role held by the top-level component.
  `handleLogin` stores a role and navigates to that role's landing page:
  learners to `/dashboard`, instructors to `/admin/courses`, admins to
  `/admin/analytics`. The `<Routes>` table is the function `Resolve(path, role)`.
  It renders a view, redirects to `/login`, or matches nothing. Only the two
  admin paths are guarded, each by exactly one role, so an admin who opens the
  course manager is redirected just like a visitor who is not signed in.
  `/dashboard` always renders, and shows `Learner` when no role is set. The
  class `Router` holds the role and a ghost log of the navigations issued. It
  also covers the two navigation callbacks the forms receive. The sign-up
  page's `goLogin` goes to `/dashboard`, as the code says, not to `/login`.
- **Signup** (`signup.dfy`): the five-field form. `validateForm` builds a
  list of errors, each naming at most one field. `handleChange` updates one
  field and filters out that field's errors. `getFieldError` and
  `generalError` are first-match lookups. `handleSubmit` replaces the list
  with one general error when the request fails.
- **Login** (`login.dfy`): the two-field form. Its errors are a record keyed
  by field. Validation differs from sign-up: the e-mail is not trimmed and the
  password minimum is 6, not 8. `handleChange` sets a shown error to
  `undefined`. `handleSubmit` hands the role to `onLogin` on success. On
  failure it leaves exactly one e-mail error.
- **Email** (`email.dfy`): the regular expression `^[^\s@]+@[^\s@]+\.[^\s@]+$`
  that both forms use. It is written twice: as the language the expression
  accepts, and as a direct check. The two are proved to agree.
- **Text** (`text.dfy`): the ECMAScript white-space set that `\s` and
  `String.prototype.trim` use (white space plus line terminators), and trimming.
- **AuthForms** (`auth_forms.dfy`): the two forms' checks side by side.
- **ClassNames** (`class_names.dfy`): `cn`, i.e.
  `classes.filter(Boolean).join(" ")`.

The network is a parameter. Each form's `HandleSubmit` takes the request's
outcome as a value: success, a non-ok response with an optional `message`, or
a thrown exception.

## Model

| member | source | states |
|---|---|---|
| App.Resolve | src/App.tsx:33-77 | The course manager renders iff the path is `/admin/courses` and the role is Instructor. Analytics renders iff the path is `/admin/analytics` and the role is Admin. The result is a redirect iff one of those two paths is opened with any other role, and every redirect goes to `/login`. The result is NoMatch iff the path is none of the six route paths, so there is no fallback. |
| App.UnguardedPaths | src/App.tsx:35-61 | For every role, `/`, `/login` and `/signup` render their views. `/dashboard` renders the dashboard with the role, or with `Learner` when the role is null. |
| App.LandingRenders | src/App.tsx:27-29 | For every role, the landing path `handleLogin` navigates to renders that role's view, never a redirect: a learner gets the dashboard showing Learner, an instructor the course manager, an admin the analytics page. |
| App.Router.constructor | src/App.tsx:21 | The role starts null and no navigation has been issued. |
| App.Router.HandleLogin | src/App.tsx:24-30 | The role becomes `r`. For a non-null `r`, exactly one navigation is appended, to that role's landing path. For null, none. |
| App.Router.GoSignup | src/App.tsx:43 | Appends one navigation, to `/signup`. The role is unchanged. |
| App.Router.GoLogin | src/App.tsx:52 | Appends one navigation, to `/dashboard`. The role is unchanged. |
| App.Router.SubmitLogin | src/App.tsx:41-42 | A submission of the sign-in form that passes validation and succeeds sets the role to the returned role and navigates to its landing path. Any other submission leaves the role and the navigation log unchanged. The form's fields are unchanged. Its `errors` become the validation record when validation fails, an empty record on success, and `{email: message}` with the failure's message otherwise. |
| AuthForms.FormsDisagree | src/pages/Auth/Login.tsx:43-53 | A 6- or 7-character password passes sign-in but is "too short" on sign-up. A non-empty all-white-space e-mail is "not valid" on sign-in but "required" on sign-up. |
| Text.Trim | src/pages/Auth/Signup.tsx:44 | The trimmed string is empty iff the input is all white space. Otherwise it neither starts nor ends with white space. |
| Text.TrimIsInfix | src/pages/Auth/Signup.tsx:44 | The trimmed string is `s` with a blank prefix and a blank suffix cut off. |
| Email.ValidEmailIffPattern | src/pages/Auth/Signup.tsx:54 | The direct check accepts exactly the strings the regular expression matches. The direct check is: no white space, exactly one `@` with something before it, and a `.` that is neither the first nor the last character after it. |
| ClassNames.Kept | src/libs/utils.ts:3 | `filter(Boolean)` keeps only non-empty strings, never more than it was given. It keeps nothing iff no argument is truthy. |
| ClassNames.Join | src/libs/utils.ts:3 | Joining k ≥ 1 parts gives a string whose length is the parts' total length plus k−1 separators. |
| ClassNames.Cn | src/libs/utils.ts:2-3 | The result is `""` iff no argument is a non-empty string. |
| ClassNames.KeptConcat | src/libs/utils.ts:3 | Filtering respects concatenation, so the kept names keep their argument order. |
| ClassNames.KeptNames | src/libs/utils.ts:3 | The kept strings are exactly the names of the truthy arguments: every kept string is an argument, and every truthy argument's name is kept. |
| ClassNames.CnSingle | src/libs/utils.ts:3 | A single truthy argument comes back unchanged. A single falsy one gives `""`. |
| ClassNames.CnLength | src/libs/utils.ts:3 | With at least one truthy argument, the length of the result is the kept names' total length plus one space between each pair. |
| ClassNames.CnSplits | src/libs/utils.ts:3 | When no name contains a space and some argument is truthy, splitting the result at spaces gives back exactly the kept names, in order. |
| Signup.SignupData.With | src/pages/Auth/Signup.tsx:76-79 | The named field gets the new value and every other field keeps its value. |
| Signup.FieldError | src/pages/Auth/Signup.tsx:133-135 | Gives no message iff no error names the field. Otherwise it gives the message of the first error that names it. |
| Signup.GeneralError | src/pages/Auth/Signup.tsx:137 | Gives nothing iff every error names a field. Otherwise it gives the first error without a field. |
| Signup.WithoutField | src/pages/Auth/Signup.tsx:81 | An error survives iff it was present and does not name the field. The list never grows. |
| Signup.FieldErrorConcat | src/pages/Auth/Signup.tsx:134 | Finding a field's error in a concatenation finds it in the first part when it is there, otherwise in the second. |
| Signup.SignupForm.constructor | src/pages/Auth/Signup.tsx:28-36 | All five fields start empty and there are no errors. |
| Signup.SignupForm.ValidateForm | src/pages/Auth/Signup.tsx:41-72 | `errors` becomes exactly the list the five checks build in check order, and the result is true iff that list is empty. |
| Signup.SignupForm.HandleChange | src/pages/Auth/Signup.tsx:74-82 | Only the named field changes, and exactly the errors naming that field are dropped. |
| Signup.SignupForm.HandleSubmit | src/pages/Auth/Signup.tsx:84-131 | A request is made iff validation passes. Otherwise `errors` is the validation list. After a request, `errors` is empty on success. On a non-ok response it is one general error carrying the response's message, or "Signup failed. Please try again." when there is none. On an exception it is one general error, "An error occurred. Please try again." |
| Signup.ValidationLookup | src/pages/Auth/Signup.tsx:44-68 | After validation, `getFieldError(f)` shows exactly the message that `f`'s check produced, or nothing. |
| Signup.ValidationErrorsShape | src/pages/Auth/Signup.tsx:44-68 | The list holds at most five errors. Every error names a field, and no field appears twice. Fields appear in the order firstName, lastName, email, password, confirmPassword. There is no general error. |
| Signup.FieldMessageMeaning | src/pages/Auth/Signup.tsx:44-68 | A name or e-mail that is empty or all white space gets "required". A non-blank e-mail that the regular expression rejects gets "not valid". The password gets "required" iff it is empty and "too short" iff its length is 1 to 7. The confirmation gets "required" iff it is empty and "do not match" iff it is non-empty and differs. |
| Signup.ValidationPassesIff | src/pages/Auth/Signup.tsx:41-71 | Validation passes iff both names are non-blank, the e-mail matches the regular expression, the password has at least 8 characters, and the confirmation equals it. |
| Signup.WithoutFieldLookup | src/pages/Auth/Signup.tsx:81 | After an edit, the edited field shows no error and every other field shows what it showed before. |
| Signup.WithoutFieldGeneral | src/pages/Auth/Signup.tsx:81 | An edit never changes `generalError`. |
| Signup.WithoutFieldConcat | src/pages/Auth/Signup.tsx:81 | Filtering respects concatenation, so the errors that remain keep their relative order. |
| Signup.SubmitFailureIsGeneral | src/pages/Auth/Signup.tsx:109-127 | A failed request leaves exactly one error, which is the general error, and no field shows an error. |
| Login.LoginData.With | src/pages/Auth/Login.tsx:61 | The named field gets the new value and the other keeps its value. |
| Login.LoginForm.constructor | src/pages/Auth/Login.tsx:33-38 | The form starts as empty e-mail and password, with an empty error record. |
| Login.LoginForm.ValidateForm | src/pages/Auth/Login.tsx:40-57 | `errors` becomes exactly the record the two checks build, and the result is true iff it has no keys. |
| Login.LoginForm.HandleChange | src/pages/Auth/Login.tsx:59-66 | Only the named field changes. If that field showed an error, its key is set to `undefined`. Otherwise the record is unchanged. |
| Login.LoginForm.HandleSubmit | src/pages/Auth/Login.tsx:68-102 | A request is made iff validation passes. Otherwise `errors` is the validation record and no role is handed on. On success the role is handed to `onLogin`. On failure `errors` is exactly `{email: message}`, where the message is the response's message, "Login failed", the exception's message, or "Login failed. Please try again.". |
| Login.ValidationPassesIff | src/pages/Auth/Login.tsx:40-57 | Validation passes iff the e-mail matches the regular expression and the password has at least 6 characters. |
| Login.ValidationShown | src/pages/Auth/Login.tsx:43-53 | A key is written iff that field's check fails, and the page shows exactly that check's message. |
| Login.BlankEmailIsInvalid | src/pages/Auth/Login.tsx:43-47 | A non-empty all-white-space e-mail gets "Please enter a valid email", not "required", because sign-in does not trim. |
| Login.ClearedShown | src/pages/Auth/Login.tsx:63-65 | After an edit the edited field shows no error and the other field shows what it showed. The set of keys is unchanged. |

## Left out

- Network and browser I/O are not modelled: `fetch`, `response.json()`, `localStorage`, `toast`, `console.error` and the `window.location.href` redirect after sign-up. A request's outcome is a parameter of `HandleSubmit`.
- The `isLoading` flag and the show/hide-password toggles are left out. They are UI flags reset in `finally`, with no invariant of their own.
- React's batching of state updates and its re-render timing are left out. Each handler is modelled as applying its updates in order.
- React Router's matching is not modelled: case-insensitive comparison and an optional trailing slash. Paths are compared as exact strings.
- `String.length` counts UTF-16 code units. The model counts characters, which gives the same answer for text in the Basic Multilingual Plane.
- Login.LoginResponse: a response body whose `message` is not a string, or an exception thrown from `localStorage`, `toast` or `onLogin` after a successful request, is not represented.
- Signup.SignupResponse: the same applies to a non-string `message`. A success response without `token` and `user` is treated like any other success, since it leaves `errors` as they are.
- Login.LoginForm.HandleSubmit: the `onLogin` prop is optional on the component. The model always hands the role on, because the router always passes `handleLogin`.
- Logout and the dashboard's token check live in src/pages/Learner/Dashboard.tsx, which is not part of this model. So nothing here resets the router's role, matching the code, where logout never does.
- The rendering of every page (AuthCard, the dashboard, the course manager, analytics, the home page) and the static dashboard data are left out. They are presentation without behaviour to state.
