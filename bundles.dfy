/**
 * DatatableBundles: the catalogue of the Dandelion asset bundles the
 * components ask for. Every constant carries a bundle name, fixed by its
 * declaration and replaceable at run time through setBundleName.
 */
module DatatableBundles {
  import opened Common

  datatype DatatableBundle =
    DATATABLES
    | DATATABLES_COLREORDER
    | DATATABLES_FIXEDHEADER
    | DATATABLES_SCROLLER
    | DATATABLES_RESPONSIVE
    | DATATABLES_BS2_RESPONSIVE
    | DATATABLES_BS3_RESPONSIVE
    | BOOTSTRAP_DATEPICKER
    | YADCF
    | JQUERY_DOWNLOAD
    | DDL_DT
    | DDL_DT_AJAX_PIPELINING
    | DDL_DT_THEME_BOOTSTRAP2
    | DDL_DT_THEME_BOOTSTRAP3
    | DDL_DT_THEME_JQUERYUI
    | DDL_DT_THEME_JQUERYUI_BLACKTIE
    | DDL_DT_THEME_JQUERYUI_BLITZER
    | DDL_DT_THEME_JQUERYUI_CUPERTINO
    | DDL_DT_THEME_JQUERYUI_DARKHIVE
    | DDL_DT_THEME_JQUERYUI_DOTLUV
    | DDL_DT_THEME_JQUERYUI_EGGPLANT
    | DDL_DT_THEME_JQUERYUI_EXCITEBIKE
    | DDL_DT_THEME_JQUERYUI_FLICK
    | DDL_DT_THEME_JQUERYUI_HOTSNEAKS
    | DDL_DT_THEME_JQUERYUI_HUMANITY
    | DDL_DT_THEME_JQUERYUI_LEFROG
    | DDL_DT_THEME_JQUERYUI_MINTCHOC
    | DDL_DT_THEME_JQUERYUI_OVERCAST
    | DDL_DT_THEME_JQUERYUI_PEPPERGRINDER
    | DDL_DT_THEME_JQUERYUI_REDMOND
    | DDL_DT_THEME_JQUERYUI_SMOOTHNESS
    | DDL_DT_THEME_JQUERYUI_SOUTHSTREET
    | DDL_DT_THEME_JQUERYUI_START
    | DDL_DT_THEME_JQUERYUI_SUNNY
    | DDL_DT_THEME_JQUERYUI_SWANKYPURSE
    | DDL_DT_THEME_JQUERYUI_TRONTASTIC
    | DDL_DT_THEME_JQUERYUI_UIDARKNESS
    | DDL_DT_THEME_JQUERYUI_UILIGHTNESS
    | DDL_DT_THEME_JQUERYUI_VADER
    | DDL_DT_SORTING_ALT_STRING
    | DDL_DT_SORTING_ANTI_THE
    | DDL_DT_SORTING_CHINESE_STRING
    | DDL_DT_SORTING_DATE_DE
    | DDL_DT_SORTING_DATE_EU
    | DDL_DT_SORTING_DATE_EURO
    | DDL_DT_SORTING_DATE_UK
    | DDL_DT_SORTING_FILESIZE
    | DDL_DT_SORTING_IP
    | DDL_DT_SORTING_NATURAL
    | DDL_DT_SORTING_PERSIAN
    | DDL_DT_SORTING_SCIENTIFIC
    | DDL_DT_SORTING_SIGNED_NUM
    | DDL_DT_SORTING_TURKISH_STRING
    | DDL_DT_PAGING_INPUT
    | DDL_DT_PAGING_SCROLLING
    | DDL_DT_PAGING_EXTJS
    | DDL_DT_PAGING_LISTBOX
    | DDL_DT_PAGING_BOOTSTRAP_SIMPLE
    | DDL_DT_PAGING_BOOTSTRAP_FULL
    | DDL_DT_PAGING_BOOTSTRAP_FULL_NUMBERS

  /** The name each constant is declared with. */
  function DeclaredName(b: DatatableBundle): string {
    match b
    case DATATABLES => "datatables"
    case DATATABLES_COLREORDER => "datatables-colreorder"
    case DATATABLES_FIXEDHEADER => "datatables-fixedheader"
    case DATATABLES_SCROLLER => "datatables-scroller"
    case DATATABLES_RESPONSIVE => "datatables-responsive"
    case DATATABLES_BS2_RESPONSIVE => "datatables-bootstrap2-responsive"
    case DATATABLES_BS3_RESPONSIVE => "datatables-bootstrap3-responsive"
    case BOOTSTRAP_DATEPICKER => "bootstrap-datepicker"
    case YADCF => "yadcf"
    case JQUERY_DOWNLOAD => "jquery-download"
    case DDL_DT => "ddl-dt"
    case DDL_DT_AJAX_PIPELINING => "ddl-dt-ajax-pipelining"
    case DDL_DT_THEME_BOOTSTRAP2 => "ddl-dt-theme-bootstrap2"
    case DDL_DT_THEME_BOOTSTRAP3 => "ddl-dt-theme-bootstrap3"
    case DDL_DT_THEME_JQUERYUI => "ddl-dt-theme-jqueryui"
    case DDL_DT_THEME_JQUERYUI_BLACKTIE => "ddl-dt-theme-jqueryui-blacktie"
    case DDL_DT_THEME_JQUERYUI_BLITZER => "ddl-dt-theme-jqueryui-blitzer"
    case DDL_DT_THEME_JQUERYUI_CUPERTINO => "ddl-dt-theme-jqueryui-cupertino"
    case DDL_DT_THEME_JQUERYUI_DARKHIVE => "ddl-dt-theme-jqueryui-darkhive"
    case DDL_DT_THEME_JQUERYUI_DOTLUV => "ddl-dt-theme-jqueryui-dotluv"
    case DDL_DT_THEME_JQUERYUI_EGGPLANT => "ddl-dt-theme-jqueryui-eggplant"
    case DDL_DT_THEME_JQUERYUI_EXCITEBIKE => "ddl-dt-theme-jqueryui-excitebike"
    case DDL_DT_THEME_JQUERYUI_FLICK => "ddl-dt-theme-jqueryui-flick"
    case DDL_DT_THEME_JQUERYUI_HOTSNEAKS => "ddl-dt-theme-jqueryui-hotsneaks"
    case DDL_DT_THEME_JQUERYUI_HUMANITY => "ddl-dt-theme-jqueryui-humanity"
    case DDL_DT_THEME_JQUERYUI_LEFROG => "ddl-dt-theme-jqueryui-lefrog"
    case DDL_DT_THEME_JQUERYUI_MINTCHOC => "ddl-dt-theme-jqueryui-mintchoc"
    case DDL_DT_THEME_JQUERYUI_OVERCAST => "ddl-dt-theme-jqueryui-overcast"
    case DDL_DT_THEME_JQUERYUI_PEPPERGRINDER => "ddl-dt-theme-jqueryui-peppergrinder"
    case DDL_DT_THEME_JQUERYUI_REDMOND => "ddl-dt-theme-jqueryui-redmond"
    case DDL_DT_THEME_JQUERYUI_SMOOTHNESS => "ddl-dt-theme-jqueryui-smoothness"
    case DDL_DT_THEME_JQUERYUI_SOUTHSTREET => "ddl-dt-theme-jqueryui-southstreet"
    case DDL_DT_THEME_JQUERYUI_START => "ddl-dt-theme-jqueryui-start"
    case DDL_DT_THEME_JQUERYUI_SUNNY => "ddl-dt-theme-jqueryui-sunny"
    case DDL_DT_THEME_JQUERYUI_SWANKYPURSE => "ddl-dt-theme-jqueryui-swankypurse"
    case DDL_DT_THEME_JQUERYUI_TRONTASTIC => "ddl-dt-theme-jqueryui-trontastic"
    case DDL_DT_THEME_JQUERYUI_UIDARKNESS => "ddl-dt-theme-jqueryui-uidarkness"
    case DDL_DT_THEME_JQUERYUI_UILIGHTNESS => "ddl-dt-theme-jqueryui-uilightness"
    case DDL_DT_THEME_JQUERYUI_VADER => "ddl-dt-theme-jqueryui-vader"
    case DDL_DT_SORTING_ALT_STRING => "ddl-dt-sorting-alt-string"
    case DDL_DT_SORTING_ANTI_THE => "ddl-dt-sorting-anti-the"
    case DDL_DT_SORTING_CHINESE_STRING => "ddl-dt-sorting-chinese-string"
    case DDL_DT_SORTING_DATE_DE => "ddl-dt-sorting-date-de"
    case DDL_DT_SORTING_DATE_EU => "ddl-dt-sorting-date-eu"
    case DDL_DT_SORTING_DATE_EURO => "ddl-dt-sorting-date-euro"
    case DDL_DT_SORTING_DATE_UK => "ddl-dt-sorting-date-uk"
    case DDL_DT_SORTING_FILESIZE => "ddl-dt-sorting-filesize"
    case DDL_DT_SORTING_IP => "ddl-dt-sorting-ip"
    case DDL_DT_SORTING_NATURAL => "ddl-dt-sorting-natural"
    case DDL_DT_SORTING_PERSIAN => "ddl-dt-sorting-persian"
    case DDL_DT_SORTING_SCIENTIFIC => "ddl-dt-sorting-scientific"
    case DDL_DT_SORTING_SIGNED_NUM => "ddl-dt-sorting-signed-num"
    case DDL_DT_SORTING_TURKISH_STRING => "ddl-dt-sorting-turkish-string"
    case DDL_DT_PAGING_INPUT => "ddl-dt-paging-input"
    case DDL_DT_PAGING_SCROLLING => "ddl-dt-paging-scrolling"
    case DDL_DT_PAGING_EXTJS => "ddl-dt-paging-extjs"
    case DDL_DT_PAGING_LISTBOX => "ddl-dt-paging-listbox"
    case DDL_DT_PAGING_BOOTSTRAP_SIMPLE => "ddl-dt-paging-bootstrap-simple"
    case DDL_DT_PAGING_BOOTSTRAP_FULL => "ddl-dt-paging-bootstrap-full"
    case DDL_DT_PAGING_BOOTSTRAP_FULL_NUMBERS => "ddl-dt-paging-bootstrap-full-numbers"
  }

  /** The vendor bundles: the libraries Dandelion-Datatables builds on. */
  predicate IsVendor(b: DatatableBundle) {
    b.DATATABLES? || b.DATATABLES_COLREORDER? || b.DATATABLES_FIXEDHEADER? || b.DATATABLES_SCROLLER?
    || b.DATATABLES_RESPONSIVE? || b.DATATABLES_BS2_RESPONSIVE? || b.DATATABLES_BS3_RESPONSIVE?
    || b.BOOTSTRAP_DATEPICKER? || b.YADCF? || b.JQUERY_DOWNLOAD?
  }

  /** The two core Dandelion bundles, DDL_DT and DDL_DT_AJAX_PIPELINING. */
  predicate IsCore(b: DatatableBundle) {
    b.DDL_DT? || b.DDL_DT_AJAX_PIPELINING?
  }

  /** The theme bundles, DDL_DT_THEME_*. */
  predicate IsTheme(b: DatatableBundle) {
    b.DDL_DT_THEME_BOOTSTRAP2? || b.DDL_DT_THEME_BOOTSTRAP3? || b.DDL_DT_THEME_JQUERYUI?
    || b.DDL_DT_THEME_JQUERYUI_BLACKTIE? || b.DDL_DT_THEME_JQUERYUI_BLITZER?
    || b.DDL_DT_THEME_JQUERYUI_CUPERTINO? || b.DDL_DT_THEME_JQUERYUI_DARKHIVE?
    || b.DDL_DT_THEME_JQUERYUI_DOTLUV? || b.DDL_DT_THEME_JQUERYUI_EGGPLANT?
    || b.DDL_DT_THEME_JQUERYUI_EXCITEBIKE? || b.DDL_DT_THEME_JQUERYUI_FLICK?
    || b.DDL_DT_THEME_JQUERYUI_HOTSNEAKS? || b.DDL_DT_THEME_JQUERYUI_HUMANITY?
    || b.DDL_DT_THEME_JQUERYUI_LEFROG? || b.DDL_DT_THEME_JQUERYUI_MINTCHOC?
    || b.DDL_DT_THEME_JQUERYUI_OVERCAST? || b.DDL_DT_THEME_JQUERYUI_PEPPERGRINDER?
    || b.DDL_DT_THEME_JQUERYUI_REDMOND? || b.DDL_DT_THEME_JQUERYUI_SMOOTHNESS?
    || b.DDL_DT_THEME_JQUERYUI_SOUTHSTREET? || b.DDL_DT_THEME_JQUERYUI_START?
    || b.DDL_DT_THEME_JQUERYUI_SUNNY? || b.DDL_DT_THEME_JQUERYUI_SWANKYPURSE?
    || b.DDL_DT_THEME_JQUERYUI_TRONTASTIC? || b.DDL_DT_THEME_JQUERYUI_UIDARKNESS?
    || b.DDL_DT_THEME_JQUERYUI_UILIGHTNESS? || b.DDL_DT_THEME_JQUERYUI_VADER?
  }

  /** The sorting plug-in bundles, DDL_DT_SORTING_*. */
  predicate IsSorting(b: DatatableBundle) {
    b.DDL_DT_SORTING_ALT_STRING? || b.DDL_DT_SORTING_ANTI_THE? || b.DDL_DT_SORTING_CHINESE_STRING?
    || b.DDL_DT_SORTING_DATE_DE? || b.DDL_DT_SORTING_DATE_EU? || b.DDL_DT_SORTING_DATE_EURO?
    || b.DDL_DT_SORTING_DATE_UK? || b.DDL_DT_SORTING_FILESIZE? || b.DDL_DT_SORTING_IP?
    || b.DDL_DT_SORTING_NATURAL? || b.DDL_DT_SORTING_PERSIAN? || b.DDL_DT_SORTING_SCIENTIFIC?
    || b.DDL_DT_SORTING_SIGNED_NUM? || b.DDL_DT_SORTING_TURKISH_STRING?
  }

  /** The paging plug-in bundles, DDL_DT_PAGING_*. */
  predicate IsPaging(b: DatatableBundle) {
    b.DDL_DT_PAGING_INPUT? || b.DDL_DT_PAGING_SCROLLING? || b.DDL_DT_PAGING_EXTJS? || b.DDL_DT_PAGING_LISTBOX?
    || b.DDL_DT_PAGING_BOOTSTRAP_SIMPLE? || b.DDL_DT_PAGING_BOOTSTRAP_FULL?
    || b.DDL_DT_PAGING_BOOTSTRAP_FULL_NUMBERS?
  }

  /** The bundles Dandelion-Datatables ships itself: every constant but the vendors. */
  predicate IsDandelion(b: DatatableBundle) {
    !IsVendor(b)
  }

  /**
   * Which constant a name can only be, judging by its length and a few of its
   * characters. Every constant is recognised from its declared name
   * (ClassifyDeclaredName), so the declared names are pairwise distinct.
   */
  function Classify(name: string): Option<DatatableBundle> {
    match |name|
    case 5 =>
      Some(YADCF)
    case 6 =>
      Some(DDL_DT)
    case 10 =>
      Some(DATATABLES)
    case 15 =>
      Some(JQUERY_DOWNLOAD)
    case 17 =>
      Some(DDL_DT_SORTING_IP)
    case 19 =>
      (match name[14]
       case 'e' =>
        Some(DDL_DT_PAGING_EXTJS)
       case 'i' =>
        Some(DDL_DT_PAGING_INPUT)
       case 'o' =>
        Some(DATATABLES_SCROLLER)
       case _ => None)
    case 20 =>
      Some(BOOTSTRAP_DATEPICKER)
    case 21 =>
      (match name[11]
       case 'c' =>
        Some(DATATABLES_COLREORDER)
       case 'e' =>
        Some(DDL_DT_THEME_JQUERYUI)
       case 'n' =>
        Some(DDL_DT_PAGING_LISTBOX)
       case 'r' =>
        Some(DATATABLES_RESPONSIVE)
       case _ => None)
    case 22 =>
      (match name[21]
       case 'e' =>
        Some(DDL_DT_SORTING_DATE_DE)
       case 'g' =>
        Some(DDL_DT_AJAX_PIPELINING)
       case 'k' =>
        Some(DDL_DT_SORTING_DATE_UK)
       case 'l' =>
        Some(DDL_DT_SORTING_NATURAL)
       case 'n' =>
        Some(DDL_DT_SORTING_PERSIAN)
       case 'r' =>
        Some(DATATABLES_FIXEDHEADER)
       case 'u' =>
        Some(DDL_DT_SORTING_DATE_EU)
       case _ => None)
    case 23 =>
      (match name[15]
       case 'a' =>
        Some(DDL_DT_SORTING_ANTI_THE)
       case 'c' =>
        Some(DDL_DT_PAGING_SCROLLING)
       case 'f' =>
        Some(DDL_DT_SORTING_FILESIZE)
       case 'o' =>
        (match name[22]
         case '2' =>
          Some(DDL_DT_THEME_BOOTSTRAP2)
         case '3' =>
          Some(DDL_DT_THEME_BOOTSTRAP3)
         case _ => None)
       case _ => None)
    case 24 =>
      Some(DDL_DT_SORTING_DATE_EURO)
    case 25 =>
      (match name[16]
       case 'c' =>
        Some(DDL_DT_SORTING_SCIENTIFIC)
       case 'i' =>
        Some(DDL_DT_SORTING_SIGNED_NUM)
       case 'l' =>
        Some(DDL_DT_SORTING_ALT_STRING)
       case _ => None)
    case 27 =>
      (match name[23]
       case 'a' =>
        Some(DDL_DT_THEME_JQUERYUI_VADER)
       case 'l' =>
        Some(DDL_DT_THEME_JQUERYUI_FLICK)
       case 't' =>
        Some(DDL_DT_THEME_JQUERYUI_START)
       case 'u' =>
        Some(DDL_DT_THEME_JQUERYUI_SUNNY)
       case _ => None)
    case 28 =>
      (match name[22]
       case 'd' =>
        Some(DDL_DT_THEME_JQUERYUI_DOTLUV)
       case 'l' =>
        Some(DDL_DT_THEME_JQUERYUI_LEFROG)
       case 'p' =>
        Some(DDL_DT_PAGING_BOOTSTRAP_FULL)
       case _ => None)
    case 29 =>
      (match name[15]
       case 'c' =>
        Some(DDL_DT_SORTING_CHINESE_STRING)
       case 't' =>
        Some(DDL_DT_SORTING_TURKISH_STRING)
       case 'u' =>
        (match name[22]
         case 'b' =>
          Some(DDL_DT_THEME_JQUERYUI_BLITZER)
         case 'r' =>
          Some(DDL_DT_THEME_JQUERYUI_REDMOND)
         case _ => None)
       case _ => None)
    case 30 =>
      (match name[22]
       case 'b' =>
        Some(DDL_DT_THEME_JQUERYUI_BLACKTIE)
       case 'd' =>
        Some(DDL_DT_THEME_JQUERYUI_DARKHIVE)
       case 'e' =>
        Some(DDL_DT_THEME_JQUERYUI_EGGPLANT)
       case 'h' =>
        Some(DDL_DT_THEME_JQUERYUI_HUMANITY)
       case 'm' =>
        Some(DDL_DT_THEME_JQUERYUI_MINTCHOC)
       case 'o' =>
        Some(DDL_DT_THEME_JQUERYUI_OVERCAST)
       case 'p' =>
        Some(DDL_DT_PAGING_BOOTSTRAP_SIMPLE)
       case _ => None)
    case 31 =>
      (match name[22]
       case 'c' =>
        Some(DDL_DT_THEME_JQUERYUI_CUPERTINO)
       case 'h' =>
        Some(DDL_DT_THEME_JQUERYUI_HOTSNEAKS)
       case _ => None)
    case 32 =>
      (match name[22]
       case 'e' =>
        Some(DDL_DT_THEME_JQUERYUI_EXCITEBIKE)
       case 'r' =>
        (match name[20]
         case '2' =>
          Some(DATATABLES_BS2_RESPONSIVE)
         case '3' =>
          Some(DATATABLES_BS3_RESPONSIVE)
         case _ => None)
       case 's' =>
        Some(DDL_DT_THEME_JQUERYUI_SMOOTHNESS)
       case 't' =>
        Some(DDL_DT_THEME_JQUERYUI_TRONTASTIC)
       case 'u' =>
        Some(DDL_DT_THEME_JQUERYUI_UIDARKNESS)
       case _ => None)
    case 33 =>
      (match name[23]
       case 'i' =>
        Some(DDL_DT_THEME_JQUERYUI_UILIGHTNESS)
       case 'o' =>
        Some(DDL_DT_THEME_JQUERYUI_SOUTHSTREET)
       case 'w' =>
        Some(DDL_DT_THEME_JQUERYUI_SWANKYPURSE)
       case _ => None)
    case 35 =>
      Some(DDL_DT_THEME_JQUERYUI_PEPPERGRINDER)
    case 36 =>
      Some(DDL_DT_PAGING_BOOTSTRAP_FULL_NUMBERS)
    case _ => None
  }

  /**
   * The constant a bundle name is declared by, if any: the inverse of
   * DeclaredName.
   */
  function FromDeclaredName(name: string): (r: Option<DatatableBundle>)
    ensures r.Some? ==> DeclaredName(r.value) == name
  {
    match Classify(name)
    case Some(b) => if DeclaredName(b) == name then Some(b) else None
    case None => None
  }

  /** Every declared name leads back to its constant. */
  lemma FromDeclaredNameInverse(b: DatatableBundle)
    ensures FromDeclaredName(DeclaredName(b)) == Some(b)
  {
    ClassifyDeclaredName(b);
  }

  /** The declared names are pairwise distinct. */
  lemma DeclaredNamesDistinct(b1: DatatableBundle, b2: DatatableBundle)
    requires b1 != b2
    ensures DeclaredName(b1) != DeclaredName(b2)
  {
    ClassifyDeclaredName(b1);
    ClassifyDeclaredName(b2);
  }

  /** Classify recognises every constant from its declared name, a few constants at a time. */
  lemma ClassifyDeclaredName(b: DatatableBundle)
    ensures Classify(DeclaredName(b)) == Some(b)
  {
    if b.DATATABLES? || b.DATATABLES_COLREORDER? || b.DATATABLES_FIXEDHEADER? || b.DATATABLES_SCROLLER?
      || b.DATATABLES_RESPONSIVE? {
      ClassifyVendor1(b);
    } else if b.DATATABLES_BS2_RESPONSIVE? || b.DATATABLES_BS3_RESPONSIVE? || b.BOOTSTRAP_DATEPICKER? || b.YADCF?
      || b.JQUERY_DOWNLOAD? {
      ClassifyVendor2(b);
    } else if b.DDL_DT? || b.DDL_DT_AJAX_PIPELINING? {
      ClassifyCore(b);
    } else if b.DDL_DT_THEME_BOOTSTRAP2? || b.DDL_DT_THEME_BOOTSTRAP3? || b.DDL_DT_THEME_JQUERYUI?
      || b.DDL_DT_THEME_JQUERYUI_BLACKTIE? || b.DDL_DT_THEME_JQUERYUI_BLITZER?
      || b.DDL_DT_THEME_JQUERYUI_CUPERTINO? || b.DDL_DT_THEME_JQUERYUI_DARKHIVE? {
      ClassifyTheme1(b);
    } else if b.DDL_DT_THEME_JQUERYUI_DOTLUV? || b.DDL_DT_THEME_JQUERYUI_EGGPLANT?
      || b.DDL_DT_THEME_JQUERYUI_EXCITEBIKE? || b.DDL_DT_THEME_JQUERYUI_FLICK?
      || b.DDL_DT_THEME_JQUERYUI_HOTSNEAKS? || b.DDL_DT_THEME_JQUERYUI_HUMANITY?
      || b.DDL_DT_THEME_JQUERYUI_LEFROG? {
      ClassifyTheme2(b);
    } else if b.DDL_DT_THEME_JQUERYUI_MINTCHOC? || b.DDL_DT_THEME_JQUERYUI_OVERCAST?
      || b.DDL_DT_THEME_JQUERYUI_PEPPERGRINDER? || b.DDL_DT_THEME_JQUERYUI_REDMOND?
      || b.DDL_DT_THEME_JQUERYUI_SMOOTHNESS? || b.DDL_DT_THEME_JQUERYUI_SOUTHSTREET?
      || b.DDL_DT_THEME_JQUERYUI_START? {
      ClassifyTheme3(b);
    } else if b.DDL_DT_THEME_JQUERYUI_SUNNY? || b.DDL_DT_THEME_JQUERYUI_SWANKYPURSE?
      || b.DDL_DT_THEME_JQUERYUI_TRONTASTIC? || b.DDL_DT_THEME_JQUERYUI_UIDARKNESS?
      || b.DDL_DT_THEME_JQUERYUI_UILIGHTNESS? || b.DDL_DT_THEME_JQUERYUI_VADER? {
      ClassifyTheme4(b);
    } else if b.DDL_DT_SORTING_ALT_STRING? || b.DDL_DT_SORTING_ANTI_THE? || b.DDL_DT_SORTING_CHINESE_STRING?
      || b.DDL_DT_SORTING_DATE_DE? || b.DDL_DT_SORTING_DATE_EU? || b.DDL_DT_SORTING_DATE_EURO?
      || b.DDL_DT_SORTING_DATE_UK? {
      ClassifySorting1(b);
    } else if b.DDL_DT_SORTING_FILESIZE? || b.DDL_DT_SORTING_IP? || b.DDL_DT_SORTING_NATURAL?
      || b.DDL_DT_SORTING_PERSIAN? || b.DDL_DT_SORTING_SCIENTIFIC? || b.DDL_DT_SORTING_SIGNED_NUM?
      || b.DDL_DT_SORTING_TURKISH_STRING? {
      ClassifySorting2(b);
    } else {
      ClassifyPaging(b);
    }
  }

  lemma ClassifyVendor1(b: DatatableBundle)
    requires b.DATATABLES? || b.DATATABLES_COLREORDER? || b.DATATABLES_FIXEDHEADER? || b.DATATABLES_SCROLLER?
      || b.DATATABLES_RESPONSIVE?
    ensures Classify(DeclaredName(b)) == Some(b)
  {
    match b
    case DATATABLES =>
    case DATATABLES_COLREORDER =>
    case DATATABLES_FIXEDHEADER =>
    case DATATABLES_SCROLLER =>
    case DATATABLES_RESPONSIVE =>
    case _ =>
  }

  lemma ClassifyVendor2(b: DatatableBundle)
    requires b.DATATABLES_BS2_RESPONSIVE? || b.DATATABLES_BS3_RESPONSIVE? || b.BOOTSTRAP_DATEPICKER? || b.YADCF?
      || b.JQUERY_DOWNLOAD?
    ensures Classify(DeclaredName(b)) == Some(b)
  {
    match b
    case DATATABLES_BS2_RESPONSIVE =>
    case DATATABLES_BS3_RESPONSIVE =>
    case BOOTSTRAP_DATEPICKER =>
    case YADCF =>
    case JQUERY_DOWNLOAD =>
    case _ =>
  }

  lemma ClassifyCore(b: DatatableBundle)
    requires b.DDL_DT? || b.DDL_DT_AJAX_PIPELINING?
    ensures Classify(DeclaredName(b)) == Some(b)
  {
    match b
    case DDL_DT =>
    case DDL_DT_AJAX_PIPELINING =>
    case _ =>
  }

  lemma ClassifyTheme1(b: DatatableBundle)
    requires b.DDL_DT_THEME_BOOTSTRAP2? || b.DDL_DT_THEME_BOOTSTRAP3? || b.DDL_DT_THEME_JQUERYUI?
      || b.DDL_DT_THEME_JQUERYUI_BLACKTIE? || b.DDL_DT_THEME_JQUERYUI_BLITZER?
      || b.DDL_DT_THEME_JQUERYUI_CUPERTINO? || b.DDL_DT_THEME_JQUERYUI_DARKHIVE?
    ensures Classify(DeclaredName(b)) == Some(b)
  {
    match b
    case DDL_DT_THEME_BOOTSTRAP2 =>
    case DDL_DT_THEME_BOOTSTRAP3 =>
    case DDL_DT_THEME_JQUERYUI =>
    case DDL_DT_THEME_JQUERYUI_BLACKTIE =>
    case DDL_DT_THEME_JQUERYUI_BLITZER =>
    case DDL_DT_THEME_JQUERYUI_CUPERTINO =>
    case DDL_DT_THEME_JQUERYUI_DARKHIVE =>
    case _ =>
  }

  lemma ClassifyTheme2(b: DatatableBundle)
    requires b.DDL_DT_THEME_JQUERYUI_DOTLUV? || b.DDL_DT_THEME_JQUERYUI_EGGPLANT?
      || b.DDL_DT_THEME_JQUERYUI_EXCITEBIKE? || b.DDL_DT_THEME_JQUERYUI_FLICK?
      || b.DDL_DT_THEME_JQUERYUI_HOTSNEAKS? || b.DDL_DT_THEME_JQUERYUI_HUMANITY?
      || b.DDL_DT_THEME_JQUERYUI_LEFROG?
    ensures Classify(DeclaredName(b)) == Some(b)
  {
    match b
    case DDL_DT_THEME_JQUERYUI_DOTLUV =>
    case DDL_DT_THEME_JQUERYUI_EGGPLANT =>
    case DDL_DT_THEME_JQUERYUI_EXCITEBIKE =>
    case DDL_DT_THEME_JQUERYUI_FLICK =>
    case DDL_DT_THEME_JQUERYUI_HOTSNEAKS =>
    case DDL_DT_THEME_JQUERYUI_HUMANITY =>
    case DDL_DT_THEME_JQUERYUI_LEFROG =>
    case _ =>
  }

  lemma ClassifyTheme3(b: DatatableBundle)
    requires b.DDL_DT_THEME_JQUERYUI_MINTCHOC? || b.DDL_DT_THEME_JQUERYUI_OVERCAST?
      || b.DDL_DT_THEME_JQUERYUI_PEPPERGRINDER? || b.DDL_DT_THEME_JQUERYUI_REDMOND?
      || b.DDL_DT_THEME_JQUERYUI_SMOOTHNESS? || b.DDL_DT_THEME_JQUERYUI_SOUTHSTREET?
      || b.DDL_DT_THEME_JQUERYUI_START?
    ensures Classify(DeclaredName(b)) == Some(b)
  {
    match b
    case DDL_DT_THEME_JQUERYUI_MINTCHOC =>
    case DDL_DT_THEME_JQUERYUI_OVERCAST =>
    case DDL_DT_THEME_JQUERYUI_PEPPERGRINDER =>
    case DDL_DT_THEME_JQUERYUI_REDMOND =>
    case DDL_DT_THEME_JQUERYUI_SMOOTHNESS =>
    case DDL_DT_THEME_JQUERYUI_SOUTHSTREET =>
    case DDL_DT_THEME_JQUERYUI_START =>
    case _ =>
  }

  lemma ClassifyTheme4(b: DatatableBundle)
    requires b.DDL_DT_THEME_JQUERYUI_SUNNY? || b.DDL_DT_THEME_JQUERYUI_SWANKYPURSE?
      || b.DDL_DT_THEME_JQUERYUI_TRONTASTIC? || b.DDL_DT_THEME_JQUERYUI_UIDARKNESS?
      || b.DDL_DT_THEME_JQUERYUI_UILIGHTNESS? || b.DDL_DT_THEME_JQUERYUI_VADER?
    ensures Classify(DeclaredName(b)) == Some(b)
  {
    match b
    case DDL_DT_THEME_JQUERYUI_SUNNY =>
    case DDL_DT_THEME_JQUERYUI_SWANKYPURSE =>
    case DDL_DT_THEME_JQUERYUI_TRONTASTIC =>
    case DDL_DT_THEME_JQUERYUI_UIDARKNESS =>
    case DDL_DT_THEME_JQUERYUI_UILIGHTNESS =>
    case DDL_DT_THEME_JQUERYUI_VADER =>
    case _ =>
  }

  lemma ClassifySorting1(b: DatatableBundle)
    requires b.DDL_DT_SORTING_ALT_STRING? || b.DDL_DT_SORTING_ANTI_THE? || b.DDL_DT_SORTING_CHINESE_STRING?
      || b.DDL_DT_SORTING_DATE_DE? || b.DDL_DT_SORTING_DATE_EU? || b.DDL_DT_SORTING_DATE_EURO?
      || b.DDL_DT_SORTING_DATE_UK?
    ensures Classify(DeclaredName(b)) == Some(b)
  {
    match b
    case DDL_DT_SORTING_ALT_STRING =>
    case DDL_DT_SORTING_ANTI_THE =>
    case DDL_DT_SORTING_CHINESE_STRING =>
    case DDL_DT_SORTING_DATE_DE =>
    case DDL_DT_SORTING_DATE_EU =>
    case DDL_DT_SORTING_DATE_EURO =>
    case DDL_DT_SORTING_DATE_UK =>
    case _ =>
  }

  lemma ClassifySorting2(b: DatatableBundle)
    requires b.DDL_DT_SORTING_FILESIZE? || b.DDL_DT_SORTING_IP? || b.DDL_DT_SORTING_NATURAL?
      || b.DDL_DT_SORTING_PERSIAN? || b.DDL_DT_SORTING_SCIENTIFIC? || b.DDL_DT_SORTING_SIGNED_NUM?
      || b.DDL_DT_SORTING_TURKISH_STRING?
    ensures Classify(DeclaredName(b)) == Some(b)
  {
    match b
    case DDL_DT_SORTING_FILESIZE =>
    case DDL_DT_SORTING_IP =>
    case DDL_DT_SORTING_NATURAL =>
    case DDL_DT_SORTING_PERSIAN =>
    case DDL_DT_SORTING_SCIENTIFIC =>
    case DDL_DT_SORTING_SIGNED_NUM =>
    case DDL_DT_SORTING_TURKISH_STRING =>
    case _ =>
  }

  lemma ClassifyPaging(b: DatatableBundle)
    requires IsPaging(b)
    ensures Classify(DeclaredName(b)) == Some(b)
  {
    match b
    case DDL_DT_PAGING_INPUT =>
    case DDL_DT_PAGING_SCROLLING =>
    case DDL_DT_PAGING_EXTJS =>
    case DDL_DT_PAGING_LISTBOX =>
    case DDL_DT_PAGING_BOOTSTRAP_SIMPLE =>
    case DDL_DT_PAGING_BOOTSTRAP_FULL =>
    case DDL_DT_PAGING_BOOTSTRAP_FULL_NUMBERS =>
    case _ =>
  }

  /** Every Dandelion bundle name starts with "ddl-dt". */
  lemma DandelionNamesPrefix(b: DatatableBundle)
    requires IsDandelion(b)
    ensures "ddl-dt" <= DeclaredName(b)
  {
    if IsCore(b) {
      assert b.DDL_DT? || b.DDL_DT_AJAX_PIPELINING?;
    } else if IsTheme(b) {
      ThemeNamesPrefix(b);
    } else if IsSorting(b) {
      SortingNamesPrefix(b);
    } else {
      PagingNamesPrefix(b);
    }
  }

  /** Every theme bundle name starts with "ddl-dt-theme-" (and so with "ddl-dt"). */
  lemma ThemeNamesPrefix(b: DatatableBundle)
    requires IsTheme(b)
    ensures "ddl-dt-theme-" <= DeclaredName(b) && "ddl-dt" <= DeclaredName(b)
  {
    if b.DDL_DT_THEME_BOOTSTRAP2? || b.DDL_DT_THEME_BOOTSTRAP3? || b.DDL_DT_THEME_JQUERYUI?
      || b.DDL_DT_THEME_JQUERYUI_BLACKTIE? || b.DDL_DT_THEME_JQUERYUI_BLITZER?
      || b.DDL_DT_THEME_JQUERYUI_CUPERTINO? || b.DDL_DT_THEME_JQUERYUI_DARKHIVE? {
      ThemeNamesPrefix1(b);
    } else if b.DDL_DT_THEME_JQUERYUI_DOTLUV? || b.DDL_DT_THEME_JQUERYUI_EGGPLANT?
      || b.DDL_DT_THEME_JQUERYUI_EXCITEBIKE? || b.DDL_DT_THEME_JQUERYUI_FLICK? {
      ThemeNamesPrefix2(b);
    } else if b.DDL_DT_THEME_JQUERYUI_HOTSNEAKS? || b.DDL_DT_THEME_JQUERYUI_HUMANITY?
      || b.DDL_DT_THEME_JQUERYUI_LEFROG? {
      ThemeNamesPrefix3(b);
    } else if b.DDL_DT_THEME_JQUERYUI_MINTCHOC? || b.DDL_DT_THEME_JQUERYUI_OVERCAST?
      || b.DDL_DT_THEME_JQUERYUI_PEPPERGRINDER? || b.DDL_DT_THEME_JQUERYUI_REDMOND?
      || b.DDL_DT_THEME_JQUERYUI_SMOOTHNESS? || b.DDL_DT_THEME_JQUERYUI_SOUTHSTREET?
      || b.DDL_DT_THEME_JQUERYUI_START? {
      ThemeNamesPrefix4(b);
    } else {
      ThemeNamesPrefix5(b);
    }
  }

  lemma ThemeNamesPrefix1(b: DatatableBundle)
    requires b.DDL_DT_THEME_BOOTSTRAP2? || b.DDL_DT_THEME_BOOTSTRAP3? || b.DDL_DT_THEME_JQUERYUI?
      || b.DDL_DT_THEME_JQUERYUI_BLACKTIE? || b.DDL_DT_THEME_JQUERYUI_BLITZER?
      || b.DDL_DT_THEME_JQUERYUI_CUPERTINO? || b.DDL_DT_THEME_JQUERYUI_DARKHIVE?
    ensures "ddl-dt-theme-" <= DeclaredName(b) && "ddl-dt" <= DeclaredName(b)
  {
    match b
    case DDL_DT_THEME_BOOTSTRAP2 =>
    case DDL_DT_THEME_BOOTSTRAP3 =>
    case DDL_DT_THEME_JQUERYUI =>
    case DDL_DT_THEME_JQUERYUI_BLACKTIE =>
    case DDL_DT_THEME_JQUERYUI_BLITZER =>
    case DDL_DT_THEME_JQUERYUI_CUPERTINO =>
    case DDL_DT_THEME_JQUERYUI_DARKHIVE =>
    case _ =>
  }

  lemma ThemeNamesPrefix2(b: DatatableBundle)
    requires b.DDL_DT_THEME_JQUERYUI_DOTLUV? || b.DDL_DT_THEME_JQUERYUI_EGGPLANT?
      || b.DDL_DT_THEME_JQUERYUI_EXCITEBIKE? || b.DDL_DT_THEME_JQUERYUI_FLICK?
    ensures "ddl-dt-theme-" <= DeclaredName(b) && "ddl-dt" <= DeclaredName(b)
  {
    match b
    case DDL_DT_THEME_JQUERYUI_DOTLUV =>
    case DDL_DT_THEME_JQUERYUI_EGGPLANT =>
    case DDL_DT_THEME_JQUERYUI_EXCITEBIKE =>
    case DDL_DT_THEME_JQUERYUI_FLICK =>
    case _ =>
  }

  lemma ThemeNamesPrefix3(b: DatatableBundle)
    requires b.DDL_DT_THEME_JQUERYUI_HOTSNEAKS? || b.DDL_DT_THEME_JQUERYUI_HUMANITY?
      || b.DDL_DT_THEME_JQUERYUI_LEFROG?
    ensures "ddl-dt-theme-" <= DeclaredName(b) && "ddl-dt" <= DeclaredName(b)
  {
    match b
    case DDL_DT_THEME_JQUERYUI_HOTSNEAKS =>
    case DDL_DT_THEME_JQUERYUI_HUMANITY =>
    case DDL_DT_THEME_JQUERYUI_LEFROG =>
    case _ =>
  }

  lemma ThemeNamesPrefix4(b: DatatableBundle)
    requires b.DDL_DT_THEME_JQUERYUI_MINTCHOC? || b.DDL_DT_THEME_JQUERYUI_OVERCAST?
      || b.DDL_DT_THEME_JQUERYUI_PEPPERGRINDER? || b.DDL_DT_THEME_JQUERYUI_REDMOND?
      || b.DDL_DT_THEME_JQUERYUI_SMOOTHNESS? || b.DDL_DT_THEME_JQUERYUI_SOUTHSTREET?
      || b.DDL_DT_THEME_JQUERYUI_START?
    ensures "ddl-dt-theme-" <= DeclaredName(b) && "ddl-dt" <= DeclaredName(b)
  {
    match b
    case DDL_DT_THEME_JQUERYUI_MINTCHOC =>
    case DDL_DT_THEME_JQUERYUI_OVERCAST =>
    case DDL_DT_THEME_JQUERYUI_PEPPERGRINDER =>
    case DDL_DT_THEME_JQUERYUI_REDMOND =>
    case DDL_DT_THEME_JQUERYUI_SMOOTHNESS =>
    case DDL_DT_THEME_JQUERYUI_SOUTHSTREET =>
    case DDL_DT_THEME_JQUERYUI_START =>
    case _ =>
  }

  lemma ThemeNamesPrefix5(b: DatatableBundle)
    requires b.DDL_DT_THEME_JQUERYUI_SUNNY? || b.DDL_DT_THEME_JQUERYUI_SWANKYPURSE?
      || b.DDL_DT_THEME_JQUERYUI_TRONTASTIC? || b.DDL_DT_THEME_JQUERYUI_UIDARKNESS?
      || b.DDL_DT_THEME_JQUERYUI_UILIGHTNESS? || b.DDL_DT_THEME_JQUERYUI_VADER?
    ensures "ddl-dt-theme-" <= DeclaredName(b) && "ddl-dt" <= DeclaredName(b)
  {
    match b
    case DDL_DT_THEME_JQUERYUI_SUNNY =>
    case DDL_DT_THEME_JQUERYUI_SWANKYPURSE =>
    case DDL_DT_THEME_JQUERYUI_TRONTASTIC =>
    case DDL_DT_THEME_JQUERYUI_UIDARKNESS =>
    case DDL_DT_THEME_JQUERYUI_UILIGHTNESS =>
    case DDL_DT_THEME_JQUERYUI_VADER =>
    case _ =>
  }

  /** Every sorting bundle name starts with "ddl-dt-sorting-" (and so with "ddl-dt"). */
  lemma SortingNamesPrefix(b: DatatableBundle)
    requires IsSorting(b)
    ensures "ddl-dt-sorting-" <= DeclaredName(b) && "ddl-dt" <= DeclaredName(b)
  {
    if b.DDL_DT_SORTING_ALT_STRING? || b.DDL_DT_SORTING_ANTI_THE? || b.DDL_DT_SORTING_CHINESE_STRING?
      || b.DDL_DT_SORTING_DATE_DE? || b.DDL_DT_SORTING_DATE_EU? || b.DDL_DT_SORTING_DATE_EURO?
      || b.DDL_DT_SORTING_DATE_UK? {
      SortingNamesPrefix1(b);
    } else {
      SortingNamesPrefix2(b);
    }
  }

  lemma SortingNamesPrefix1(b: DatatableBundle)
    requires b.DDL_DT_SORTING_ALT_STRING? || b.DDL_DT_SORTING_ANTI_THE? || b.DDL_DT_SORTING_CHINESE_STRING?
      || b.DDL_DT_SORTING_DATE_DE? || b.DDL_DT_SORTING_DATE_EU? || b.DDL_DT_SORTING_DATE_EURO?
      || b.DDL_DT_SORTING_DATE_UK?
    ensures "ddl-dt-sorting-" <= DeclaredName(b) && "ddl-dt" <= DeclaredName(b)
  {
    match b
    case DDL_DT_SORTING_ALT_STRING =>
    case DDL_DT_SORTING_ANTI_THE =>
    case DDL_DT_SORTING_CHINESE_STRING =>
    case DDL_DT_SORTING_DATE_DE =>
    case DDL_DT_SORTING_DATE_EU =>
    case DDL_DT_SORTING_DATE_EURO =>
    case DDL_DT_SORTING_DATE_UK =>
    case _ =>
  }

  lemma SortingNamesPrefix2(b: DatatableBundle)
    requires b.DDL_DT_SORTING_FILESIZE? || b.DDL_DT_SORTING_IP? || b.DDL_DT_SORTING_NATURAL?
      || b.DDL_DT_SORTING_PERSIAN? || b.DDL_DT_SORTING_SCIENTIFIC? || b.DDL_DT_SORTING_SIGNED_NUM?
      || b.DDL_DT_SORTING_TURKISH_STRING?
    ensures "ddl-dt-sorting-" <= DeclaredName(b) && "ddl-dt" <= DeclaredName(b)
  {
    match b
    case DDL_DT_SORTING_FILESIZE =>
    case DDL_DT_SORTING_IP =>
    case DDL_DT_SORTING_NATURAL =>
    case DDL_DT_SORTING_PERSIAN =>
    case DDL_DT_SORTING_SCIENTIFIC =>
    case DDL_DT_SORTING_SIGNED_NUM =>
    case DDL_DT_SORTING_TURKISH_STRING =>
    case _ =>
  }

  /** Every paging bundle name starts with "ddl-dt-paging-" (and so with "ddl-dt"). */
  lemma PagingNamesPrefix(b: DatatableBundle)
    requires IsPaging(b)
    ensures "ddl-dt-paging-" <= DeclaredName(b) && "ddl-dt" <= DeclaredName(b)
  {
    match b
    case DDL_DT_PAGING_INPUT =>
    case DDL_DT_PAGING_SCROLLING =>
    case DDL_DT_PAGING_EXTJS =>
    case DDL_DT_PAGING_LISTBOX =>
    case DDL_DT_PAGING_BOOTSTRAP_SIMPLE =>
    case DDL_DT_PAGING_BOOTSTRAP_FULL =>
    case DDL_DT_PAGING_BOOTSTRAP_FULL_NUMBERS =>
    case _ =>
  }

  /** The names after setBundleName(b, name): b is renamed and every other constant keeps its name. */
  function Renamed(names: DatatableBundle -> string, b: DatatableBundle, name: string): (r: DatatableBundle -> string)
    ensures r(b) == name
    ensures forall other :: other != b ==> r(other) == names(other)
  {
    other => if other == b then name else names(other)
  }

  /**
   * The run-time state of the enum: the current name of every constant. Every
   * constant starts with its declared name.
   */
  class BundleNames {
    var bundleName: DatatableBundle -> string

    constructor ()
      ensures forall b :: bundleName(b) == DeclaredName(b)
    {
      bundleName := DeclaredName;
    }

    method GetBundleName(b: DatatableBundle) returns (name: string)
      ensures name == bundleName(b)
    {
      name := bundleName(b);
    }

    method SetBundleName(b: DatatableBundle, name: string)
      modifies this
      ensures bundleName == Renamed(old(bundleName), b, name)
    {
      bundleName := Renamed(bundleName, b, name);
    }
  }
}
