/**
 * The storefront's two translation tables, the `t` lookup with its
 * fallback to the key, and the page direction chosen from the language.
 */
module I18n {

  datatype Language = En | Ar

  /** The English table. */
  const EnglishTable: map<string, string> :=
    map[
      "nav.home" := "Home",
      "nav.shop" := "Shop",
      "nav.factories" := "Factories",
      "nav.about" := "About",
      "nav.cart" := "Cart",
      "nav.login" := "Login",
      "nav.logout" := "Logout",
      "nav.apply_vendor" := "Apply as Vendor",
      "nav.vendor_dashboard" := "Vendor Dashboard",
      "product.add_to_cart" := "Add to Cart",
      "product.out_of_stock" := "Out of Stock",
      "product.stock" := "Stock",
      "cart.empty" := "Your cart is empty",
      "cart.checkout" := "Proceed to Checkout",
      "cart.moq_error" := "A minimum of 30 items is required to place an order",
      "home.savings_title" := "Community Savings:",
      "home.hero_title_1" := "Direct from the Source.",
      "home.hero_title_2" := "Honest to your Wallet.",
      "home.hero_desc" := "We've eliminated the middlemen to bring you premium quality goods directly from the world's best factories at unbeatable prices.",
      "home.cta_shop" := "Start Saving Now",
      "home.cta_how" := "How it Works",
      "home.feature_1_title" := "Unbeatable Savings",
      "home.feature_1_desc" := "By removing retailers and distributors, we pass 100% of the savings directly to you.",
      "home.feature_2_title" := "Verified Quality",
      "home.feature_2_desc" := "Every product comes from the same factories producing for top luxury brands.",
      "home.feature_3_title" := "Transparent Origin",
      "home.feature_3_desc" := "Know exactly where your product was made, who made it, and what it cost to produce.",
      "home.trending" := "Trending Now",
      "home.trending_desc" := "Top factory-direct picks this week.",
      "home.view_all" := "View All",
      "vendor.add_product" := "Add Product",
      "vendor.edit_product" := "Edit Product",
      "vendor.save" := "Save",
      "vendor.save_success" := "Product saved successfully",
      "vendor.title_en" := "Product Title (English)",
      "vendor.title_ar" := "Product Title (Arabic)",
      "vendor.desc_en" := "Description (English)",
      "vendor.desc_ar" := "Description (Arabic)",
      "vendor.price" := "Price",
      "vendor.stock" := "Stock",
      "vendor.category" := "Category",
      "vendor.image_url" := "Image URL",
      "common.currency" := "LE"
    ]

  /** The Arabic table. */
  const ArabicTable: map<string, string> :=
    map[
      "nav.home" := "الرئيسية",
      "nav.shop" := "المتجر",
      "nav.factories" := "المصانع",
      "nav.about" := "عن المنصة",
      "nav.cart" := "العربة",
      "nav.login" := "تسجيل الدخول",
      "nav.logout" := "تسجيل الخروج",
      "nav.apply_vendor" := "كن بائعاً",
      "nav.vendor_dashboard" := "لوحة البائع",
      "product.add_to_cart" := "أضف إلى العربة",
      "product.out_of_stock" := "نفدت الكمية",
      "product.stock" := "المخزون",
      "cart.empty" := "عربة التسوق فارغة",
      "cart.checkout" := "إتمام الشراء",
      "cart.moq_error" := "يجب اختيار 30 قطعة على الأقل لإتمام الطلب",
      "home.savings_title" := "مدخرات المجتمع:",
      "home.hero_title_1" := "مباشرة من المصدر.",
      "home.hero_title_2" := "بأسعار صادقة.",
      "home.hero_desc" := "لقد ألغينا الوسطاء لنوفر لك سلعاً ذات جودة عالية مباشرة من أفضل المصانع في العالم بأسعار لا تقبل المنافسة.",
      "home.cta_shop" := "ابدأ التوفير الآن",
      "home.cta_how" := "كيف يعمل؟",
      "home.feature_1_title" := "توفير لا يهزم",
      "home.feature_1_desc" := "من خلال إزالة تجار التجزئة والموزعين، ننقل 100٪ من المدخرات إليك مباشرة.",
      "home.feature_2_title" := "جودة مضمونة",
      "home.feature_2_desc" := "كل منتج يأتي من نفس المصانع التي تنتج لأفضل الماركات العالمية.",
      "home.feature_3_title" := "مصدر شفاف",
      "home.feature_3_desc" := "تعرف بالضبط أين صنع منتجك، ومن صنعه، وتكلفة إنتاجه.",
      "home.trending" := "المنتجات الرائجة",
      "home.trending_desc" := "أفضل اختياراتنا من المصنع مباشرة لهذا الأسبوع.",
      "home.view_all" := "عرض الكل",
      "vendor.add_product" := "إضافة منتج",
      "vendor.edit_product" := "تعديل منتج",
      "vendor.save" := "حفظ",
      "vendor.save_success" := "تم حفظ المنتج بنجاح",
      "vendor.title_en" := "اسم المنتج (انجليزي)",
      "vendor.title_ar" := "اسم المنتج (عربي)",
      "vendor.desc_en" := "الوصف (انجليزي)",
      "vendor.desc_ar" := "الوصف (عربي)",
      "vendor.price" := "السعر",
      "vendor.stock" := "المخزون",
      "vendor.category" := "الفئة",
      "vendor.image_url" := "رابط الصورة",
      "common.currency" := "ج.م"
    ]

  /** The table for a language. */
  function Translations(lang: Language): map<string, string>
  {
    match lang
    case En => EnglishTable
    case Ar => ArabicTable
  }

  /**
   * A lookup in `table` that falls back to the key. The fallback is taken
   * both for a missing key and for an entry that is the empty string,
   * because the lookup combines the entry and the key with a falsy test.
   */
  function Lookup(table: map<string, string>, key: string): (r: string)
    ensures key in table && table[key] != "" ==> r == table[key]
    ensures key !in table ==> r == key
    ensures key in table && table[key] == "" ==> r == key
  {
    if key in table && table[key] != "" then table[key] else key
  }

  /** `t(key)` for the current language. */
  function T(lang: Language, key: string): (r: string)
    ensures key in Translations(lang) && Translations(lang)[key] != "" ==> r == Translations(lang)[key]
    ensures key !in Translations(lang) ==> r == key
  {
    Lookup(Translations(lang), key)
  }

  /** The `dir` attribute of the document for a language. */
  function Dir(lang: Language): (d: string)
    ensures d == "rtl" || d == "ltr"
  {
    if lang == Ar then "rtl" else "ltr"
  }

  /** The direction is right-to-left exactly for Arabic. */
  lemma DirFollowsLanguage(lang: Language)
    ensures Dir(lang) == "rtl" <==> lang == Ar
    ensures Dir(lang) == "ltr" <==> lang == En
  {
    assert "rtl"[0] != "ltr"[0];
  }

  /** Both tables define exactly the same keys. */
  lemma SameKeys()
    ensures EnglishTable.Keys == ArabicTable.Keys
  {
  }
}
