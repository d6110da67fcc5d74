# Portfolio website: verified model of its logic

This project models the parts of the bilingual (Arabic/English) portfolio site that hold real logic. The rest of the site is declarative markup.

- **Language provider.** The active language starts in Arabic and a toggle flips it. `t(key)` looks a key up in the active table and falls back to the key itself. The right-to-left flag follows the language.
- **Sound.** The sound provider keeps its on/off preference in `localStorage`. It creates one Web Audio context on first use and plays four named tones (click, hover, success, toggle). The sound-effects hook plays the same four tones from its own preset table. Each playback is modelled as the ordered log of calls it makes on the audio context.
- **Navigation bar.**
  - Theme initialisation and the theme toggle, with its storage write.
  - The language and sound buttons, and the order of the sounds they request.
  - The mobile menu.
  - The scroll threshold.
  - Which link is highlighted for the section that is on screen.
- **Contact form.**
  - The length rules of the schema.
  - The project-type label lookup.
  - The submit/confirm state machine, driven by the outcome of the email send.
- **Projects section.** Type filters, card titles and descriptions in English with a fallback to the Arabic original, tag truncation with a `+N` badge, and tag colours.
- **Skills section.** Per-category lists, translated headings and icons with a default.
- **Page metadata.** The document's `lang`, `dir` and title; the meta tags present in the head; and the JSON-LD `Person` record.

Modules follow the source files:

| module | file | models |
|---|---|---|
| `Prelude` | prelude.dfy | `Option`, order-preserving `Filter`, `find`, `slice`, `record[key] \|\| fallback` |
| `Language` | language.dfy | the translation tables (an excerpt), `Translate`, class `LanguageProvider` |
| `Storage` | storage.dfy | class `LocalStorage` over a `map<string, string>` |
| `Audio` | audio.dfy | class `AudioContext` (a log of calls), tone presets, what a log schedules, `WellFormedTone` |
| `SoundContext` | sound_context.dfy | its preset table and class `SoundProvider` |
| `SoundEffects` | sound_effects.dfy | its preset table and class `SoundEffects` (the hook's refs) |
| `Navigation` | navigation.dfy | class `NavigationBar` and the pure rules it uses |
| `Contact` | contact.dfy | schema, labels, the email request, class `ContactForm` |
| `Projects` | projects.dfy | the project list, filtering and the card contents |
| `Skills` | skills.dfy | section lists, headings, icons |
| `Seo` | seo.dfy | language to metadata, class `Document`, the JSON-LD record |

Browser facilities become plain inputs:

- Storage is a map.
- The system colour preference is a `prefersDark` argument.
- The scroll position is a `real` argument.
- The section observer's notifications are a sequence of entries.
- Whether a target element exists is a `bool`.
- Whether the audio constructor succeeds is a `supported` flag, and the state of a new context is a parameter.
- zod's e-mail check is an `isEmail` predicate.
- The outcome of `emailjs.send` is a `succeeded` flag.

Sounds that components ask for, toasts, e-mail requests and timers are recorded in order as events in an `events`/`effects` field, instead of being executed. `setTimeout` therefore appears as a `TimerSet(delay, action)` event.

## Model

| member | source | states |
|---|---|---|
| Language.Toggled | src/contexts/LanguageContext.tsx:232-234 | toggling always changes the language |
| Language.ToggleTwiceRestores | src/contexts/LanguageContext.tsx:232-234 | toggling twice gives back the original language |
| Language.ToggleNegatesRtl | src/contexts/LanguageContext.tsx:233-240 | `isRTL` holds exactly in Arabic, and every toggle negates it |
| Language.TranslateUsesEntry | src/contexts/LanguageContext.tsx:236-238 | `t` returns the entry when it is present and non-empty; it returns the key when the entry is absent or empty |
| Language.UnknownKeyResolvesToItself | src/contexts/LanguageContext.tsx:237 | a key absent from both transcribed excerpts resolves to itself in either language |
| Language.FallbackIffAbsentFromBoth | src/contexts/LanguageContext.tsx:13-225 | for any two tables with the same keys and no empty entry, a lookup misses in one exactly when the key is in neither |
| Language.TablesAgree | src/contexts/LanguageContext.tsx:13-224 | the Arabic and English excerpts (15 keys each) have the same keys and no empty entry |
| Language.FallbackOnlyForUnknownKeys | src/contexts/LanguageContext.tsx:236-238 | in either language, `t` over the excerpts falls back exactly for keys that are in neither excerpt |
| Language.LanguageProvider.constructor | src/contexts/LanguageContext.tsx:230 | the provider starts in Arabic |
| Language.LanguageProvider.ToggleLanguage | src/contexts/LanguageContext.tsx:232-240 | the language becomes the other one, and `isRTL` is negated |
| Language.NavHomeScenario | src/contexts/LanguageContext.tsx:230-240 | `t('nav.home')` is 'الرئيسية' with right-to-left on at first, and 'Home' with it off after one toggle |
| Storage.LocalStorage.SetItem | src/contexts/SoundContext.tsx:96 | `setItem` overwrites one key, leaves every other key alone, and reads back the stored value |
| SoundContext.OnlyFalseDisables | src/contexts/SoundContext.tsx:15-18 | sound starts enabled when nothing is stored or "true" is stored; it starts disabled exactly when "false" is stored |
| SoundContext.PreferenceRoundTrip | src/contexts/SoundContext.tsx:15-18 | the string that line 96 writes for a flag is read back as that flag |
| SoundContext.SoundProvider.constructor | src/contexts/SoundContext.tsx:14-18 | the flag is read from storage, and no audio context exists yet |
| SoundContext.SoundProvider.GetAudioContext | src/contexts/SoundContext.tsx:20-25 | an existing context is returned unchanged; otherwise a fresh, empty one is created and kept, or none when the constructor fails |
| SoundContext.SoundProvider.PlaySoundFromRender | src/contexts/SoundContext.tsx:27-91 | the callback handed out by a render checks that render's flag: off means no context is created and no call is made; on means the same playback as `PlaySound` |
| SoundContext.SoundProvider.PlaySound | src/contexts/SoundContext.tsx:27-91 | disabled: no context is created and no call is made. Enabled: the one context, new or reused, gains exactly the playback log of the tone at its current time, which starts with a resume request iff the context was suspended. An unavailable context is swallowed |
| SoundContext.SoundProvider.ToggleSound | src/contexts/SoundContext.tsx:93-99 | the flag is negated, `String(flag)` is stored under `soundEnabled`, and the next initialisation reads the new flag back |
| SoundContext.ReloadAfterToggle | src/contexts/SoundContext.tsx:93-99 | after a toggle and a reload, the initial flag is the opposite of the one before |
| SoundContext.PlayOn | src/contexts/SoundContext.tsx:31-87 | on a given context: an optional resume, then node set-up, then the tone's calls, appended in that order |
| SoundContext.ScheduleContextTone | src/contexts/SoundContext.tsx:46-87 | the switch appends exactly the preset's tone calls for the requested tone |
| SoundContext.ScheduleClick | src/contexts/SoundContext.tsx:47-55 | the click branch issues the click preset's calls, in order |
| SoundContext.ScheduleHover | src/contexts/SoundContext.tsx:57-65 | the hover branch issues the hover preset's calls, in order |
| SoundContext.ScheduleSuccess | src/contexts/SoundContext.tsx:67-76 | the success branch issues the success preset's calls, in order |
| SoundContext.ScheduleToggle | src/contexts/SoundContext.tsx:78-86 | the toggle branch issues the toggle preset's calls, in order |
| SoundContext.ContextPresetsOk | src/contexts/SoundContext.tsx:47-86 | every tone's constants meet `PresetOk`: offsets start at 0 and increase, all before the stop; frequencies and the gain floor are positive; the stop equals the gain-ramp end |
| SoundContext.ContextPresetLifetimes | src/contexts/SoundContext.tsx:47-86 | stop equals gain-ramp end (click 0.08, hover 0.03, success 0.3, toggle 0.07); the floor is 0.001; toggle is triangle, the rest sine |
| SoundContext.ContextPlaybackWellFormed | src/contexts/SoundContext.tsx:34-86 | every playback log, with or without resume, is a well-formed tone |
| SoundContext.SuccessArpeggio | src/contexts/SoundContext.tsx:67-76 | success sets exactly 523.25, 659.25 and 783.99 Hz at now, now+0.08 and now+0.16, and stops at now+0.3 |
| SoundEffects.SoundEffects.constructor | src/hooks/useSoundEffects.ts:6-7 | sound starts enabled with no context |
| SoundEffects.SoundEffects.GetAudioContext | src/hooks/useSoundEffects.ts:9-14 | lazy creation, then reuse of the one context |
| SoundEffects.SoundEffects.PlaySound | src/hooks/useSoundEffects.ts:16-75 | disabled: nothing happens. Enabled: the context gains exactly the tone's playback log, with no resume. A failing constructor only logs "Audio not available" |
| SoundEffects.SoundEffects.ToggleSounds | src/hooks/useSoundEffects.ts:77-79 | the flag becomes exactly the argument, so repeating the call changes nothing |
| SoundEffects.PlayOn | src/hooks/useSoundEffects.ts:20-70 | node set-up, then the tone's calls, appended to the given context |
| SoundEffects.ScheduleEffectsTone | src/hooks/useSoundEffects.ts:29-70 | the switch appends exactly the hook's preset calls for the tone |
| SoundEffects.ScheduleClick | src/hooks/useSoundEffects.ts:30-38 | the click branch's calls |
| SoundEffects.ScheduleHover | src/hooks/useSoundEffects.ts:40-48 | the hover branch's calls |
| SoundEffects.ScheduleSuccess | src/hooks/useSoundEffects.ts:50-59 | the success branch's calls |
| SoundEffects.ScheduleToggle | src/hooks/useSoundEffects.ts:61-69 | the toggle branch's calls |
| SoundEffects.EffectsPresetsOk | src/hooks/useSoundEffects.ts:30-69 | every tone of the hook's table meets `PresetOk` |
| SoundEffects.EffectsPresetLifetimes | src/hooks/useSoundEffects.ts:30-69 | stop equals gain-ramp end (0.08, 0.04, 0.4, 0.08); the floor is 0.001; toggle is triangle |
| SoundEffects.EffectsPlaybackWellFormed | src/hooks/useSoundEffects.ts:20-70 | every playback log of the hook is a well-formed tone and contains no resume request |
| SoundEffects.EffectsSuccessArpeggio | src/hooks/useSoundEffects.ts:50-59 | success steps through 523.25, 659.25 and 783.99 Hz at now, now+0.1 and now+0.2, and stops at now+0.4 |
| SoundEffects.TablesDiffer | src/hooks/useSoundEffects.ts:30-69 | the hook's tones are louder than the provider's (compare src/contexts/SoundContext.tsx:47-86) and use the same frequencies |
| Audio.ToneCallsWellFormed | src/contexts/SoundContext.tsx:47-86 | any preset meeting `PresetOk` yields a tone log that starts once at now and stops once later; its frequency events increase strictly and end before the stop; its gain ramps to a positive floor exactly at the stop |
| Audio.PlaybackWellFormed | src/contexts/SoundContext.tsx:34-86 | the resume request and the node set-up schedule nothing, so a whole playback is as well formed as its tone |
| Audio.PlaybackResumesFirst | src/contexts/SoundContext.tsx:34-38 | the playback starts with a resume request exactly when one is asked for (the context was suspended), and no later call is a resume |
| Audio.FrequencyCallsTimes | src/contexts/SoundContext.tsx:68-75 | the frequency events are scheduled at now plus each offset, one per breakpoint, in order |
| Audio.GainAndLifetimeCollect | src/contexts/SoundContext.tsx:49-54 | the gain envelope and the start/stop calls schedule gain at now and at the ramp end, start at now and stop at now plus the lifetime |
| Audio.AudioContext.constructor | src/contexts/SoundContext.tsx:22 | a new context has the given state, time 0 and an empty log |
| Audio.AudioContext.Resume | src/contexts/SoundContext.tsx:35 | `resume()` is appended to the log |
| Audio.AudioContext.ExponentialRampToValueAtTime | src/contexts/SoundContext.tsx:51 | the ramp is appended; a zero target, which Web Audio rejects, is excluded |
| Navigation.ThemeRoundTrip | src/components/Navigation.tsx:33-46 | a stored theme name is read back as the same theme, whatever the system prefers |
| Navigation.InitialDarkCases | src/components/Navigation.tsx:34-35 | with no stored theme, the system preference decides; "light" means light; any non-empty stored value is dark exactly when it is "dark" |
| Navigation.NavigationBar.constructor | src/components/Navigation.tsx:8-11 | not scrolled, menu closed, light, and "home" active |
| Navigation.NavigationBar.InitTheme | src/components/Navigation.tsx:33-38 | `isDark` is computed from the stored theme and the preference, and the root's `dark` class follows it |
| Navigation.NavigationBar.ToggleTheme | src/components/Navigation.tsx:40-46 | the toggle sound is requested first; the theme flips; "dark"/"light" is stored; the root class follows; the next load restores the theme |
| Navigation.NavigationBar.HandleLanguageToggle | src/components/Navigation.tsx:48-51 | the toggle sound is requested, then the language flips exactly once |
| Navigation.NavigationBar.HandleSoundToggle | src/components/Navigation.tsx:53-59 | the preference always flips and is stored, and the audio context is untouched; a 50 ms toggle-tone timer is set only when sound was off before, and its callback holds the flag of the render that set it |
| Navigation.NavigationBar.HandleLinkClick | src/components/Navigation.tsx:61-64 | the click sound is requested, and the menu ends closed whatever its state |
| Navigation.NavigationBar.HandleLinkHover | src/components/Navigation.tsx:66-68 | the hover sound is requested |
| Navigation.NavigationBar.HandleDesktopClick | src/components/Navigation.tsx:106-118 | the logo and the desktop links request the click sound |
| Navigation.NavigationBar.ToggleMobileMenu | src/components/Navigation.tsx:187-190 | the click sound is requested and the menu flips |
| Navigation.NavigationBar.HandleMobileLinkClick | src/components/Navigation.tsx:225-234 | the link-click behaviour, then a 100 ms scroll to the target only when the target exists |
| Navigation.NavigationBar.HandleScroll | src/components/Navigation.tsx:25-27 | `isScrolled` holds iff scrollY > 50 |
| Navigation.NavigationBar.HandleIntersection | src/components/Navigation.tsx:71-77 | after a batch of entries, the active section is the one its specification function gives |
| Navigation.ActiveAfterUnchanged | src/components/Navigation.tsx:72-76 | a batch with no entry on screen leaves the active section unchanged |
| Navigation.ActiveAfterLastIntersecting | src/components/Navigation.tsx:72-76 | otherwise the active section is the id of the last on-screen entry |
| Navigation.LinkActiveIffSection | src/components/Navigation.tsx:120 | the link `#id` is highlighted exactly when `id` is the active section (the mobile menu repeats the test at line 236) |
| Navigation.AtMostOneLinkActive | src/components/Navigation.tsx:15-22 | whatever the active section, at most one navigation link is highlighted by the test at line 120 |
| Navigation.InitialHighlight | src/components/Navigation.tsx:11 | on first render exactly the `#home` link is highlighted |
| Navigation.NavLabelsTranslated | src/components/Navigation.tsx:15-22 | every navigation label's key has a non-empty entry in both tables, so no label shows a raw key |
| Navigation.NavigationBar.RunSoundTimerAsWritten | src/components/Navigation.tsx:57 | the callback as written runs the captured `playSound`: with the captured flag off the audio context is left exactly as it was |
| Navigation.NavigationBar.RunSoundTimer | src/components/Navigation.tsx:55-57 | the intended callback checks the preference when it fires; when it is on, a new context receives exactly the toggle tone's playback |
| Navigation.EnableSoundAsWritten | src/components/Navigation.tsx:53-59 | on a fresh page, the sound button turns sound on exactly when it was off and sets the timer exactly then, yet once the timer fires the audio context has received no call at all |
| Navigation.EnableSound | src/components/Navigation.tsx:53-59 | with the intended callback, every enabling click is confirmed by exactly the toggle tone's playback (resume first iff the new context is suspended); a disabling click plays nothing |
| Contact.Utf16LengthBounds | src/components/sections/Contact.tsx:38-43 | the length zod measures is between one and two units per character; it equals the character count on the Basic Multilingual Plane |
| Contact.SchemaAcceptsIff | src/components/sections/Contact.tsx:38-43 | the form is valid iff: name has 2 to 100 units; e-mail passes the format check and has at most 255; the project type is non-empty; message has 10 to 1000 |
| Contact.NameIssueReported | src/components/sections/Contact.tsx:39 | a too-short name and a too-long name are each reported exactly when they happen |
| Contact.EmailIssueReported | src/components/sections/Contact.tsx:40 | a malformed e-mail and one over 255 units are each reported exactly when they happen |
| Contact.ProjectTypeIssueReported | src/components/sections/Contact.tsx:41 | a missing project type is reported exactly when the field is empty |
| Contact.MessageIssueReported | src/components/sections/Contact.tsx:42 | a message under 10 or over 1000 units is reported exactly then |
| Contact.CustomMessages | src/components/sections/Contact.tsx:39-42 | exactly the four `min`/`email` rules carry a custom message, and it differs between the languages |
| Contact.KnownProjectTypeLabel | src/components/sections/Contact.tsx:112-115 | a project type listed at lines 45-50 shows `t` of its label key, which is `contact.form.type.<value>` |
| Contact.UnknownProjectTypeLabel | src/components/sections/Contact.tsx:112-115 | any other value is shown as itself |
| Contact.EmailRequestCarriesForm | src/components/sections/Contact.tsx:86-96 | the send carries exactly the four form fields under their parameter names |
| Contact.ContactForm.constructor | src/components/sections/Contact.tsx:31-34 | not submitting, not submitted, dialog closed, nothing pending |
| Contact.ContactForm.HandleSubmit | src/components/sections/Contact.tsx:208 | callable only while no send is in flight (the button is disabled at line 277); validation errors are recomputed; a valid form goes to `onSubmit`, and an invalid one changes nothing else |
| Contact.ContactForm.OnSubmit | src/components/sections/Contact.tsx:73-77 | click sound, data kept as pending, dialog open, nothing sent |
| Contact.ContactForm.SetConfirmDialog | src/components/sections/Contact.tsx:304 | the dialog's own open/close sets the flag |
| Contact.ContactForm.BeginConfirmSend | src/components/sections/Contact.tsx:79-96 | runs only from the open dialog (its button is inside it, line 340); with nothing pending nothing changes; otherwise the dialog closes, submitting starts and the pending data is sent |
| Contact.ContactForm.CompleteSend | src/components/sections/Contact.tsx:98-109 | success: toast, success sound, submitted mark, a cleared form, no pending data and a 3000 ms timer. Failure: only the error toast, with pending data and the form kept. Either way submitting ends |
| Contact.ContactForm.HandleConfirmSend | src/components/sections/Contact.tsx:79-110 | the whole handler, reachable only with the dialog open: nothing without pending data; otherwise the send, then the outcome's effects, in order |
| Contact.ContactForm.ExpireSubmitted | src/components/sections/Contact.tsx:104 | the timer clears the submitted mark |
| Contact.SubmitAndConfirm | src/components/sections/Contact.tsx:73-110 | a valid form at rest, submitted and confirmed, produces the click sound, the send of its current values and the outcome's effects, in that order, and ends not submitting |
| Contact.RetryAfterFailure | src/components/sections/Contact.tsx:73-110 | a failed round keeps the form's values, so the user's second submit reopens the dialog with the same data; the page then shows click, send, error toast, then click, the same send, success toast, success sound and the 3 s timer |
| Contact.InvalidFormSendsNothing | src/components/sections/Contact.tsx:70-77 | an invalid form reports its issues and never opens the dialog, so nothing is sent and no sound is requested |
| Projects.AllShowsEverything | src/components/sections/Projects.tsx:125-127 | under "all" the list is every project, in order |
| Projects.FilterSelectsType | src/components/sections/Projects.tsx:125-127 | a project is listed iff it is a project and the filter is "all" or its type; the list is a subsequence of the projects |
| Projects.SaasOnlyUnderAll | src/components/sections/Projects.tsx:105-127 | a `saas` project, allowed by src/types/index.ts:6, shows among the button filters only under "all" |
| Projects.ExactlyOneHighlighted | src/components/sections/Projects.tsx:171-173 | for a filter chosen by a button, exactly that button is highlighted |
| Projects.EcommerceFilter | src/components/sections/Projects.tsx:125-127 | with the site's data, "ecommerce" lists the two stores, in data order |
| Projects.SingleProjectFilters | src/components/sections/Projects.tsx:125-127 | "mobile", "educational" and "portfolio" each list one project |
| Projects.CardTextFallback | src/components/sections/Projects.tsx:41-42 | Arabic shows the originals; English shows the English text when non-empty, else the original |
| Projects.EveryProjectTranslated | src/components/sections/Projects.tsx:24-38 | every project of the site has a non-empty English title and description |
| Projects.TagsAccountForAll | src/components/sections/Projects.tsx:83-97 | the first min(4, n) tags are shown in order; a `+(n-4)` badge appears iff n > 4; together they account for all n |
| Projects.TechClassFallback | src/components/sections/Projects.tsx:8-22 | at line 87 a known technology gets its colour, an unknown one the muted default |
| Projects.NovelsAppCard | src/components/sections/Projects.tsx:83-97 | the first card shows 4 tags and `+1`, and its 'Push Notifications' tag is muted |
| Skills.SectionListsItsCategory | src/components/sections/Skills.tsx:118-120 | a section lists exactly the skills of its category, in data order |
| Skills.SectionsAreTheFour | src/components/sections/Skills.tsx:48 | there is a section for every category except `soft` |
| Skills.SkillShownOnce | src/components/sections/Skills.tsx:118-120 | a skill is in a section iff that section is its category; a `soft` skill (src/types/index.ts:15) is in none |
| Skills.SectionsPartitionSkills | src/components/sections/Skills.tsx:118-120 | the four sections plus the soft skills count every skill exactly once |
| Skills.AllShownWithoutSoft | src/components/sections/Skills.tsx:118-120 | without soft skills every skill is shown exactly once |
| Skills.CategoryLabelsTranslated | src/components/sections/Skills.tsx:52-57 | each heading is `t('skills.' + category)` and hits a non-empty entry in both languages |
| Skills.SiteSkillsHaveBrandIcons | src/components/sections/Skills.tsx:13-38 | every one of the 24 skills of src/lib/data.ts gets its own icon, so the default of line 132 never shows on the page |
| Skills.SiteSkillsAllShown | src/lib/data.ts:63-95 | the site's 24 skills include no soft skill, so the four sections show all of them, each once |
| Seo.Document.ApplySeo | src/components/SEO.tsx:7-66 | `lang`, `dir` and title are set from the language; each meta tag present gets its content for the language; absent tags stay absent |
| Seo.Document.WriteIfPresent | src/components/SEO.tsx:18-24 | a content write happens only when the tag exists |
| Seo.WriteAllSetsEveryTag | src/components/SEO.tsx:18-65 | after the six guarded writes, every present tag holds its new content and no tag was added |
| Seo.AppliedMetaKeepsTags | src/components/SEO.tsx:18-65 | the update neither adds nor removes a tag, and overwrites each present one |
| Seo.AppliedMetaIdempotent | src/components/SEO.tsx:7-66 | re-running the effect for the same language changes nothing, and the result does not depend on the previous language |
| Seo.DocumentLangIff | src/components/SEO.tsx:9 | `lang` is "ar" iff the language is Arabic, else "en" |
| Seo.DirAgreesWithRtl | src/components/SEO.tsx:10 | `dir` is "rtl" iff `isRTL` (src/contexts/LanguageContext.tsx:240), else "ltr" |
| Seo.LocaleMatchesLang | src/components/SEO.tsx:45-47 | `og:locale` is ar_EG or en_US and begins with the document's `lang` |
| Seo.TitlesAgree | src/components/SEO.tsx:13-58 | `document.title`, `og:title` and `twitter:title` are the same string, and the two languages' titles differ |
| Seo.SocialDescriptionsAgree | src/components/SEO.tsx:38-65 | `og:description` and `twitter:description` agree |
| Seo.JsonLdSharedFields | src/components/SEO.tsx:69-109 | the record's url, e-mail, telephone, sameAs and knowsAbout do not depend on the language, nor do its schema types |
| Seo.JsonLdDescriptionIsSocial | src/components/SEO.tsx:38-76 | the record's description is the social description of the same language |

`WellFormedTone` (audio.dfy) is the property the tone lemmas establish. It fixes five things:

- the tone starts once, at `now`;
- it stops once, later;
- its frequency events start at `now`, increase strictly and end before the stop;
- its gain is set at `now` and ramps to a positive floor, reached exactly at the stop;
- every exponential ramp aims at a positive value.

## Left out

- **Audio signal processing.** The Web Audio graph's sound, the ramp curves and the clock are not modelled; only the log of API calls is. `currentTime` is a field that nothing advances.
- **Audio context states.** Only `running` and `suspended` are modelled. A closed context, and the promise `resume()` returns, are left out.
- **Audio failures.** The only failure modelled is the context constructor failing (`supported` is false). The calls on an existing context are assumed not to throw.
- **SoundContext.SoundProvider.PlaySoundFromRender:** only the stale flag is modelled. The other values the memoised callback captures are not modelled, because `getAudioContext` reads a ref and is the same in every render. The hook's `playSound` reads a ref, so its callback never goes stale.
- **Timers.** Deferred work (`setTimeout` in Navigation.tsx:57 and :230-232, and Contact.tsx:104) is recorded as a `TimerSet` event. `Contact.ContactForm.ExpireSubmitted` models the 3000 ms callback. The model does not fire the other timers.
- **Language.ArTranslations, Language.EnTranslations, Language.TablesAgree, Language.UnknownKeyResolvesToItself, Language.FallbackOnlyForUnknownKeys:** an excerpt of 15 keys per language out of the full tables at LanguageContext.tsx:13-225. They hold:
  - the navigation labels;
  - the skill category headings;
  - the contact project types;
  - the success message.

  Parity of the full tables is stated through `FallbackIffAbsentFromBoth`, which holds for any two tables with equal keys and no empty entry. Parity is proved only for the excerpt. For any of the 70 keys left out (such as `hero.greeting`), the model's `t` returns the key, where the site shows text.
- **Filter-button labels.** The keys `projects.filter.*` and the other translation keys are not part of the excerpt, so the filter-button labels are not checked.
- **Skills data.** The skill levels are transcribed but play no part in any contract. The icons are reduced to the set of names `skillIcons` covers; their React elements and colours are left out.
- **Prelude.LookupOr:** models `record[key] || fallback` on a plain object literal by its own keys only. Names inherited from `Object.prototype`, such as `constructor`, would be truthy in JavaScript; no call site looks one up.
- **Projects data.** Images and links of projects (src/lib/data.ts:18-61) are left out. Ids, titles, descriptions, technologies and types are transcribed.
- **Contact.SchemaAccepts:** zod's e-mail format check is a parameter, `isEmail`. Only the length bounds are modelled, measured in UTF-16 code units as zod measures them. For code points above U+FFFF this is two units, not one character.
- **Contact.ContactForm.HandleConfirmSend:** `emailjs.send` is a network call. The model records its request and takes its outcome as the `succeeded` argument. The handler is split at the `await` into `BeginConfirmSend` and `CompleteSend`, so interleavings with other events during the send are not modelled.
- **Toasts.** The contents and placement of toasts are not modelled.
- **Seo.JsonLd:** modelled as a record. It is not serialised to JSON (`JSON.stringify`), and the `<script>` tag is not modelled.
- **Seo.TitlesAgree:** the texts that SEO.tsx repeats literally (the title three times, the social description three times) are named once as constants. The agreement between the title and the name plus job title, and the relation between the long and the short description, are not stated.
- **React mechanics.** Rendering, animation (framer-motion), the carousel, and the context hooks throwing outside a provider (LanguageContext.tsx:251-253, SoundContext.tsx:110-112) are framework plumbing.
- **Rendering-only components.** Hero, About, Services, Testimonials, Footer, NotFound, Index and WhatsAppButton are markup only.
- **Numeric precision.** Times and frequencies are exact `real`s. Floating-point rounding of `now + 0.08` and similar sums is not modelled.

## Findings

| source | as written | input that shows it | evidently intended | confidence | as-written member | corrected member |
|---|---|---|---|---|---|---|
| src/components/Navigation.tsx:53-59 | the 50 ms callback calls the `playSound` captured in the render where sound was off (its deps at src/contexts/SoundContext.tsx:91 include `isSoundEnabled`), so it returns at once | sound disabled; click the sound button | the comment says "Play sound after toggle if enabling": the confirmation tone should sound | high (reading of the closure; not executed) | Navigation.EnableSoundAsWritten | Navigation.EnableSound |
