/** The site's translation context (context/LanguageContext.tsx): a fixed
    table of English and Indonesian strings, the current language, and `t`,
    which looks a key up in the current language and falls back to the key
    itself. */
module LanguageContext {
  import opened Text

  /** `type Language = 'en' | 'id'`. */
  datatype Lang = En | Id

  /** One table entry `{ en, id }`: both languages are always present. */
  datatype Entry = Entry(en: string, id: string)

  /** `translations[key]` (LanguageContext.tsx:15-88): the entry of a key,
      or nothing for a key the table lacks. */
  function Translations(key: string): Option<Entry>
  {
    match key
    case "nav.overview" => Some(Entry("Overview", "Ringkasan"))
    case "nav.dashboard" => Some(Entry("Dashboard", "Dashboard"))
    case "nav.ailab" => Some(Entry("AI Lab", "Lab AI"))
    case "nav.projects" => Some(Entry("Projects", "Proyek"))
    case "nav.skills" => Some(Entry("Tech Stack", "Tech Stack"))
    case "nav.certificates" => Some(Entry("Certificates", "Sertifikat"))
    case "nav.journey" => Some(Entry("Journey", "Perjalanan"))
    case "nav.blog" => Some(Entry("TIL Blog", "Blog TIL"))
    case "nav.hireme" => Some(Entry("Hire Me", "Rekrut Saya"))
    case "profile.downloadCV" => Some(Entry("Download CV", "Unduh CV"))
    case "profile.online" => Some(Entry("Online", "Online"))
    case "profile.bio" => Some(Entry("Informatics Engineering Graduate @ USU", "Lulusan Teknik Informatika @ USU"))
    case "profile.role" => Some(Entry("ML Engineer \U{2022} Data Scientist \U{2022} Web Dev", "ML Engineer \U{2022} Data Scientist \U{2022} Web Dev"))
    case "readme.greeting" => Some(Entry("Hi there, I'm Fakhri! \U{1F44B}", "Halo, Saya Fakhri! \U{1F44B}"))
    case "readme.aboutTitle" => Some(Entry("\U{1F3AF} About Me", "\U{1F3AF} Tentang Saya"))
    case "readme.aboutContent" => Some(Entry("Fresh graduate in Informatics Engineering (D3) from Universitas Sumatera Utara with GPA 3.86. I'm a junior developer passionate about building practical solutions using", "Fresh graduate Teknik Informatika (D3) dari Universitas Sumatera Utara dengan IPK 3.86. Saya seorang junior developer yang antusias membangun solusi praktis menggunakan"))
    case "readme.certTitle" => Some(Entry("\U{1F3C6} Certifications & Training", "\U{1F3C6} Sertifikasi & Pelatihan"))
    case "readme.focusTitle" => Some(Entry("\U{1F52D} Current Focus", "\U{1F52D} Fokus Saat Ini"))
    case "readme.focus1" => Some(Entry("Learning to build end-to-end ML pipelines with TensorFlow & Cloud deployment", "Belajar membangun ML pipeline end-to-end dengan TensorFlow & deployment Cloud"))
    case "readme.focus2" => Some(Entry("Developing fullstack web applications using modern frameworks (Next.js, Laravel)", "Mengembangkan aplikasi web fullstack menggunakan framework modern (Next.js, Laravel)"))
    case "readme.focus3" => Some(Entry("Exploring data visualization and analysis with Python libraries", "Mengeksplorasi visualisasi dan analisis data dengan library Python"))
    case "readme.techTitle" => Some(Entry("\U{1F6E0}\U{FE0F} Technologies I Work With", "\U{1F6E0}\U{FE0F} Teknologi yang Saya Gunakan"))
    case "readme.opportunityTitle" => Some(Entry("\U{1F4EB} Open to Opportunities", "\U{1F4EB} Terbuka untuk Kesempatan"))
    case "readme.opportunityContent" => Some(Entry("As a fresh graduate, I'm actively seeking internship or entry-level positions in Machine Learning, Data Science, or Web Development. I'm eager to learn and contribute to impactful projects.", "Sebagai fresh graduate, saya aktif mencari posisi magang atau entry-level di bidang Machine Learning, Data Science, atau Web Development. Saya ingin belajar dan berkontribusi pada proyek-proyek berdampak."))
    case "section.liveActivity" => Some(Entry("Live Activity", "Aktivitas Live"))
    case "section.liveDataFeeds" => Some(Entry("Live Data Feeds", "Data Feed Live"))
    case "section.techStack" => Some(Entry("Tech Stack", "Tech Stack"))
    case "section.skillProficiency" => Some(Entry("Skill Proficiency", "Tingkat Keahlian"))
    case "section.learningJourney" => Some(Entry("My Learning Journey", "Perjalanan Belajar Saya"))
    case "section.achievements" => Some(Entry("Achievements", "Pencapaian"))
    case "section.til" => Some(Entry("Today I Learned", "Hari Ini Saya Belajar"))
    case "section.hireMeTitle" => Some(Entry("Let's Work Together", "Mari Bekerja Sama"))
    case "hire.availability" => Some(Entry("Availability", "Ketersediaan"))
    case "hire.fulltime" => Some(Entry("Full-time", "Full-time"))
    case "hire.internship" => Some(Entry("Internship", "Magang"))
    case "hire.freelance" => Some(Entry("Freelance", "Freelance"))
    case "hire.contract" => Some(Entry("Contract", "Kontrak"))
    case "hire.preferredRoles" => Some(Entry("Preferred Roles", "Peran yang Diinginkan"))
    case "hire.quickMessage" => Some(Entry("Quick Message", "Pesan Cepat"))
    case "hire.yourName" => Some(Entry("Your Name", "Nama Anda"))
    case "hire.email" => Some(Entry("Email Address", "Alamat Email"))
    case "hire.message" => Some(Entry("Message", "Pesan"))
    case "hire.send" => Some(Entry("Send Message", "Kirim Pesan"))
    case "hire.sending" => Some(Entry("Sending...", "Mengirim..."))
    case "hire.sent" => Some(Entry("Message Sent!", "Pesan Terkirim!"))
    case "hire.sentDesc" => Some(Entry("I'll get back to you as soon as possible.", "Saya akan membalas secepat mungkin."))
    case "hire.location" => Some(Entry("Based in Medan, Indonesia (Open to Remote)", "Berbasis di Medan, Indonesia (Terbuka untuk Remote)"))
    case "common.showMore" => Some(Entry("Show more", "Tampilkan lebih"))
    case "common.showLess" => Some(Entry("Show less", "Tampilkan sedikit"))
    case "common.viewAll" => Some(Entry("View all", "Lihat semua"))
    case "common.unlocked" => Some(Entry("Unlocked", "Terbuka"))
    case "common.complete" => Some(Entry("complete", "selesai"))
    case "footer.text" => Some(Entry("Layout inspired by GitHub.", "Layout terinspirasi dari GitHub."))
    case _ => None
  }

  /** `translation[language]`. */
  function Pick(e: Entry, lang: Lang): string
  {
    match lang
    case En => e.en
    case Id => e.id
  }

  /** The body of `t` (LanguageContext.tsx:101-108): the entry's string in
      `lang`, or the key itself when the table has no entry for it. */
  function Translate(lang: Lang, key: string): (s: string)
    ensures Translations(key).None? ==> s == key
    ensures Translations(key).Some? ==> s == Pick(Translations(key).value, lang)
  {
    match Translations(key)
    case None => key
    case Some(entry) => Pick(entry, lang)
  }

  /** `language === 'en' ? 'id' : 'en'`, the toggle of
      components/ui/LanguageToggle.tsx:11 and
      components/layout/ProfileSidebar.tsx:183. */
  function Other(lang: Lang): (o: Lang)
    ensures o != lang
  {
    if lang == En then Id else En
  }

  /** `LanguageProvider`: its only state is the current language. */
  class LanguageProvider {
    var language: Lang

    /** `useState<Language>('en')`. */
    constructor()
      ensures language == En
    {
      language := En;
    }

    /** `setLanguage`: the language is overwritten, the table untouched. */
    method SetLanguage(lang: Lang)
      modifies this
      ensures language == lang
    {
      language := lang;
    }

    /** The language switch of the toggle buttons. */
    method Toggle()
      modifies this
      ensures language == Other(old(language))
    {
      SetLanguage(if language == En then Id else En);
    }

    /** `t(key)` in the current language. */
    function T(key: string): (s: string)
      reads this
      ensures s == Translate(language, key)
    {
      Translate(language, key)
    }
  }

  // ---------------------------------------------------------------------
  // Properties

  /** Keys the components ask for that the table lacks come back as they
      are, in both languages (components/sections/AchievementBadges.tsx:117,
      components/sections/LearningTimeline.tsx:109). */
  lemma MissingKeysEcho(lang: Lang)
    ensures Translate(lang, "section.achievementsDesc") == "section.achievementsDesc"
    ensures Translate(lang, "section.learningJourneyDesc") == "section.learningJourneyDesc"
  {
  }

  /** A known key gives its entry's text: the first navigation entry. */
  lemma KnownKey()
    ensures Translate(En, "nav.overview") == "Overview"
    ensures Translate(Id, "nav.overview") == "Ringkasan"
  {
  }

  /** Toggling twice gives back the language one started with. */
  lemma ToggleTwice(lang: Lang)
    ensures Other(Other(lang)) == lang
  {
  }

  /** Pressing the toggle twice restores the provider's language. */
  method ToggleTwiceRestores(p: LanguageProvider)
    modifies p
    ensures p.language == old(p.language)
  {
    p.Toggle();
    p.Toggle();
  }

  /** Switching the language changes only which half of an entry is read:
      for a missing key the text stays the key. */
  lemma SwitchKeepsMissingKeys(key: string)
    requires Translations(key).None?
    ensures Translate(En, key) == Translate(Id, key) == key
  {
  }
}
