/** Language selection and the five-way text tables of the main window.
    The localized messages exist in English, Polish, Russian, German and
    Spanish, and the language selector's text decides which one is shown. The
    run's progress lines (backup, headings, closing line) are English only
    and are written out where they are logged. */
module Localization {
  import opened TextUtil

  /** One message in the five supported languages. */
  datatype Texts = Texts(en: string, pl: string, ru: string, de: string, es: string)

  /** CurrentLang: the text of the selected language item, "English" when
      nothing is selected. */
  function CurrentLang(selected: Option<string>): (lang: string)
    ensures selected.None? ==> lang == "English"
    ensures selected.Some? ==> lang == selected.value
  {
    match selected
    case Some(text) => text
    case None => "English"
  }

  /** The languages the message tables cover, one per table column. */
  datatype Language = English | Polish | Russian | German | Spanish

  /** Localize's switch on the selector's text: the names Polski, Русский,
      Deutsch and Español pick their language; every other name, English
      included, falls through to English. */
  function LanguageOf(name: string): (lang: Language)
    ensures lang == English <==> name !in {"Polski", "Русский", "Deutsch", "Español"}
  {
    match name
    case "Polski" => Polish
    case "Русский" => Russian
    case "Deutsch" => German
    case "Español" => Spanish
    case _ => English
  }

  /** Localize's result: the column of the message for the language. */
  function Localize(lang: Language, t: Texts): (r: string)
    ensures r == t.en || r == t.pl || r == t.ru || r == t.de || r == t.es
  {
    match lang
    case English => t.en
    case Polish => t.pl
    case Russian => t.ru
    case German => t.de
    case Spanish => t.es
  }

  /** With no language selected, every message comes out in English. */
  lemma NoSelectionIsEnglish()
    ensures LanguageOf(CurrentLang(None)) == English
  {
  }

  /** Each recognised selector name picks its own column. */
  lemma SelectorNamesPickColumns(t: Texts)
    ensures Localize(LanguageOf("English"), t) == t.en && Localize(LanguageOf("Polski"), t) == t.pl
    ensures Localize(LanguageOf("Русский"), t) == t.ru && Localize(LanguageOf("Deutsch"), t) == t.de
    ensures Localize(LanguageOf("Español"), t) == t.es
  {
  }

  /** The window's messages in one language, as Localize yields them. */
  datatype Messages = Messages(
    dnsLabel: string, powerLabel: string, noScripts: string, selectAtLeastOne: string,
    tweakWarning: string, dnsApplying: string, dnsAdminFailed: string, dnsParseFailed: string,
    ipv6Note: string, reportHeader: string, powerCreating: string, powerFailed: string,
    uacDenied: string)

  /** Every message of the tables below, in the language `lang`. */
  function MessagesIn(lang: Language): Messages {
    Messages(
      Localize(lang, DnsLabel()), Localize(lang, UltimatePowerLabel()), Localize(lang, NoScriptsMessage()),
      Localize(lang, SelectAtLeastOne()), Localize(lang, TweakWarning()), Localize(lang, DnsApplying()),
      Localize(lang, DnsAdminFailed()), Localize(lang, DnsParseFailed()), Localize(lang, Ipv6PolicyNote()),
      Localize(lang, DnsReportHeader()), Localize(lang, PowerCreating()), Localize(lang, PowerFailed()),
      Localize(lang, UacDenied()))
  }

  // ----- message tables -----

  function DnsLabel(): Texts {
    Texts(
    "Change DNS to Cloudflare (malware blocking + better responsiveness)",
    "Zmiana DNS na Cloudflare (blokowanie malware + lepsza responsywność)",
    "Смена DNS на Cloudflare (блокировка вредоносного ПО + лучшая отзывчивость)",
    "DNS auf Cloudflare ändern (Malware-Block + bessere Reaktionszeit)",
    "Cambiar DNS a Cloudflare (bloqueo de malware + mejor respuesta)")
  }

  function UltimatePowerLabel(): Texts {
    Texts(
    "Power plan: Ultimate Performance (create + activate)",
    "Plan zasilania: Najwyższa wydajność (utwórz + aktywuj)",
    "План питания: Максимальная производительность (создать + активировать)",
    "Energieplan: Ultimative Leistung (erstellen + aktivieren)",
    "Plan de energía: Máximo rendimiento (crear + activar)")
  }

  function NoScriptsMessage(): Texts {
    Texts(
    "No scripts found. Put your *.ps1 or *.cmd files into the 'scripts' folder.",
    "Brak skryptów. Wrzuć pliki *.ps1 lub *.cmd do folderu 'scripts'.",
    "Скрипты не найдены. Добавьте файлы *.ps1 или *.cmd в папку 'scripts'.",
    "Keine Skripte gefunden. Lege *.ps1 oder *.cmd in den Ordner 'scripts'.",
    "No se encontraron scripts. Coloca *.ps1 o *.cmd en la carpeta 'scripts'.")
  }

  function SelectAtLeastOne(): Texts {
    Texts(
    "Please select at least one option or upload your own.",
    "Proszę wybrać co najmniej jedną możliwość albo wgrać własne.",
    "Пожалуйста, выберите хотя бы один вариант или загрузите свои.",
    "Bitte wähle mindestens eine Option oder lade eigene hoch.",
    "Selecciona al menos una opción o sube las propias.")
  }

  function TweakWarning(): Texts {
    Texts(
    "⚠ Tweak finished with warnings/errors.",
    "⚠ Tweak zakończył się z ostrzeżeniami/błędami.",
    "⚠ Твик завершился с предупреждениями/ошибками.",
    "⚠ Tweak mit Warnungen/Fehlern beendet.",
    "⚠ El ajuste terminó con advertencias/errores.")
  }

  function DnsApplying(): Texts {
    Texts(
    "Applying Cloudflare DNS (malware blocking + better responsiveness)...",
    "Ustawianie DNS Cloudflare (blokowanie malware + lepsza responsywność)...",
    "Применение DNS Cloudflare (блокировка вредоносного ПО + лучшая отзывчивость)...",
    "Cloudflare-DNS wird gesetzt (Malware-Block + bessere Reaktionszeit)...",
    "Aplicando DNS de Cloudflare (bloqueo de malware + mejor respuesta)...")
  }

  function DnsAdminFailed(): Texts {
    Texts(
    "⚠ Could not obtain administrator rights or the command failed.",
    "⚠ Nie udało się uzyskać uprawnień administratora albo komenda nie powiodła się.",
    "⚠ Не удалось получить права администратора или команда завершилась ошибкой.",
    "⚠ Administratorrechte konnten nicht erlangt werden oder Befehl fehlgeschlagen.",
    "⚠ No se pudieron obtener privilegios de administrador o el comando falló.")
  }

  function DnsParseFailed(): Texts {
    Texts(
    "Could not parse DNS configuration.",
    "Nie udało się sparsować konfiguracji DNS.",
    "Не удалось разобрать конфигурацию DNS.",
    "DNS-Konfiguration konnte nicht geparst werden.",
    "No se pudo analizar la configuración DNS.")
  }

  function Ipv6PolicyNote(): Texts {
    Texts(
    "ℹ️ IPv6 may be disabled by system policy (HKLM...\\Tcpip6\\Parameters\\DisabledComponents ≠ 0).",
    "ℹ️ IPv6 może być wyłączone polityką systemową (HKLM...\\Tcpip6\\Parameters\\DisabledComponents ≠ 0).",
    "ℹ️ IPv6 может быть отключён политикой системы (HKLM...\\Tcpip6\\Parameters\\DisabledComponents ≠ 0).",
    "ℹ️ IPv6 könnte per Systemrichtlinie deaktiviert sein (HKLM...\\Tcpip6\\Parameters\\DisabledComponents ≠ 0).",
    "ℹ️ IPv6 puede estar deshabilitado por política del sistema (HKLM...\\Tcpip6\\Parameters\\DisabledComponents ≠ 0).")
  }

  function DnsReportHeader(): Texts {
    Texts(
    "DNS on active adapters:",
    "DNS na aktywnych interfejsach:",
    "DNS на активных адаптерах:",
    "DNS auf aktiven Adaptern:",
    "DNS en adaptadores activos:")
  }

  function PowerCreating(): Texts {
    Texts(
    "Creating and activating Ultimate Performance power plan...",
    "Tworzenie i aktywacja planu zasilania Najwyższa wydajność...",
    "Создание и активация плана питания Максимальная производительность...",
    "Erstelle und aktiviere Energieplan Ultimative Leistung...",
    "Creando y activando el plan de energía Máximo rendimiento...")
  }

  function PowerFailed(): Texts {
    Texts(
    "⚠ Could not create or activate Ultimate Performance plan.",
    "⚠ Nie udało się utworzyć lub aktywować planu Najwyższa wydajność.",
    "⚠ Не удалось создать или активировать план Максимальная производительность.",
    "⚠ Plan Ultimative Leistung konnte nicht erstellt oder aktiviert werden.",
    "⚠ No se pudo crear o activar el plan Máximo rendimiento.")
  }

  function UacDenied(): Texts {
    Texts(
    "⚠ Administrator permission denied (UAC cancelled).",
    "⚠ Odmowa uprawnień administratora (anulowano UAC).",
    "⚠ Отказано в правах администратора (UAC отменён).",
    "⚠ Administratorrechte verweigert (UAC abgebrochen).",
    "⚠ Permiso de administrador denegado (UAC cancelado).")
  }
}
