/**
 * The site's translation table: five locales with one and the same record
 * shape (the six sections nav, hero, about, services, contact and footer),
 * and the lookup that falls back to English for any other code.
 */
module Translations {
  import I18n

  datatype Nav = Nav(home: string, about: string, services: string, contact: string, blog: string)
  datatype Hero = Hero(greeting: string, title: string, subtitle: string, cta: string, learnMore: string)
  datatype About = About(title: string, subtitle: string, description: string, skills: string, skillsList: seq<string>)
  /** One service card. */
  datatype Entry = Entry(title: string, description: string)
  datatype Services = Services(title: string, subtitle: string, seo: Entry, content: Entry, ai: Entry, analytics: Entry)
  datatype Contact = Contact(title: string, subtitle: string, name: string, email: string, subject: string,
                             message: string, send: string, address: string, phone: string, emailLabel: string)
  datatype Footer = Footer(description: string, quickLinks: string, services: string, followMe: string, rights: string)
  /** One locale's strings; having one datatype for all five locales is the "same keys everywhere" property. */
  datatype Table = Table(nav: Nav, hero: Hero, about: About, services: Services, contact: Contact, footer: Footer)

  const English: Table := Table(
    Nav(
      "Home",
      "About",
      "Services",
      "Contact",
      "Blog"),
    Hero(
      "Hello, I'm",
      "Digital Marketing Expert & AI Specialist",
      "Helping businesses grow through strategic digital marketing, SEO optimization, and cutting-edge AI solutions.",
      "Get in Touch",
      "Learn More"),
    About(
      "About Me",
      "Passionate about digital transformation",
      "With over 10 years of experience in digital marketing, I specialize in SEO, content strategy, and AI optimization. Based in João Pessoa, Brazil, I help businesses worldwide achieve their digital goals through data-driven strategies and innovative solutions.",
      "Key Skills",
      ["SEO & SEM Optimization", "Content Strategy", "AI & Machine Learning", "Data Analytics", "Social Media Marketing", "Conversion Optimization"]),
    Services(
      "Services",
      "How I can help your business grow",
      Entry("SEO Optimization", "Comprehensive SEO strategies to improve your search rankings and organic traffic."),
      Entry("Content Strategy", "Data-driven content creation and strategy to engage your audience and drive conversions."),
      Entry("AI Integration", "Leveraging artificial intelligence to optimize your marketing processes and improve ROI."),
      Entry("Data Analytics", "Deep insights into your marketing performance with actionable recommendations.")),
    Contact(
      "Get in Touch",
      "Let's discuss your project",
      "Name",
      "Email",
      "Subject",
      "Message",
      "Send Message",
      "Address",
      "Phone",
      "Email"),
    Footer(
      "Digital Marketing Expert helping businesses grow through strategic SEO, content marketing, and AI optimization.",
      "Quick Links",
      "Services",
      "Follow Me",
      "All rights reserved."))

  const Spanish: Table := Table(
    Nav(
      "Inicio",
      "Acerca de",
      "Servicios",
      "Contacto",
      "Blog"),
    Hero(
      "Hola, soy",
      "Experto en Marketing Digital y Especialista en IA",
      "Ayudo a las empresas a crecer a través del marketing digital estratégico, optimización SEO y soluciones de IA de vanguardia.",
      "Contactar",
      "Saber Más"),
    About(
      "Acerca de Mí",
      "Apasionado por la transformación digital",
      "Con más de 10 años de experiencia en marketing digital, me especializo en SEO, estrategia de contenido y optimización con IA. Desde João Pessoa, Brasil, ayudo a empresas de todo el mundo a alcanzar sus objetivos digitales a través de estrategias basadas en datos y soluciones innovadoras.",
      "Habilidades Clave",
      ["Optimización SEO y SEM", "Estrategia de Contenido", "IA y Aprendizaje Automático", "Análisis de Datos", "Marketing en Redes Sociales", "Optimización de Conversiones"]),
    Services(
      "Servicios",
      "Cómo puedo ayudar a crecer tu negocio",
      Entry("Optimización SEO", "Estrategias SEO integrales para mejorar tus rankings de búsqueda y tráfico orgánico."),
      Entry("Estrategia de Contenido", "Creación de contenido y estrategia basada en datos para involucrar a tu audiencia y generar conversiones."),
      Entry("Integración de IA", "Aprovechando la inteligencia artificial para optimizar tus procesos de marketing y mejorar el ROI."),
      Entry("Análisis de Datos", "Perspectivas profundas sobre tu rendimiento de marketing con recomendaciones accionables.")),
    Contact(
      "Contacto",
      "Hablemos sobre tu proyecto",
      "Nombre",
      "Correo",
      "Asunto",
      "Mensaje",
      "Enviar Mensaje",
      "Dirección",
      "Teléfono",
      "Correo"),
    Footer(
      "Experto en Marketing Digital ayudando a empresas a crecer a través de SEO estratégico, marketing de contenidos y optimización con IA.",
      "Enlaces Rápidos",
      "Servicios",
      "Sígueme",
      "Todos los derechos reservados."))

  const Chinese: Table := Table(
    Nav(
      "首页",
      "关于",
      "服务",
      "联系",
      "博客"),
    Hero(
      "你好，我是",
      "数字营销专家和人工智能专家",
      "通过战略性数字营销、SEO优化和尖端AI解决方案帮助企业成长。",
      "联系我",
      "了解更多"),
    About(
      "关于我",
      "热衷于数字化转型",
      "拥有超过10年的数字营销经验，我专注于SEO、内容策略和AI优化。我位于巴西若昂佩索阿，通过数据驱动的策略和创新解决方案帮助全球企业实现数字化目标。",
      "核心技能",
      ["SEO和SEM优化", "内容策略", "AI和机器学习", "数据分析", "社交媒体营销", "转化优化"]),
    Services(
      "服务",
      "我如何帮助您的企业成长",
      Entry("SEO优化", "全面的SEO策略，提高您的搜索排名和自然流量。"),
      Entry("内容策略", "基于数据的内容创建和策略，吸引您的受众并推动转化。"),
      Entry("AI集成", "利用人工智能优化您的营销流程并提高投资回报率。"),
      Entry("数据分析", "深入了解您的营销表现，提供可操作的建议。")),
    Contact(
      "联系我",
      "让我们讨论您的项目",
      "姓名",
      "邮箱",
      "主题",
      "消息",
      "发送消息",
      "地址",
      "电话",
      "邮箱"),
    Footer(
      "数字营销专家，通过战略SEO、内容营销和AI优化帮助企业成长。",
      "快速链接",
      "服务",
      "关注我",
      "版权所有。"))

  const Arabic: Table := Table(
    Nav(
      "الرئيسية",
      "حول",
      "الخدمات",
      "التواصل",
      "المدونة"),
    Hero(
      "مرحباً، أنا",
      "خبير التسويق الرقمي ومتخصص الذكاء الاصطناعي",
      "أساعد الشركات على النمو من خلال التسويق الرقمي الاستراتيجي وتحسين محركات البحث وحلول الذكاء الاصطناعي المتطورة.",
      "تواصل معي",
      "اعرف المزيد"),
    About(
      "حولي",
      "شغوف بالتحول الرقمي",
      "مع أكثر من 10 سنوات من الخبرة في التسويق الرقمي، أتخصص في تحسين محركات البحث واستراتيجية المحتوى وتحسين الذكاء الاصطناعي. مقيم في جواو بيسوا، البرازيل، أساعد الشركات حول العالم على تحقيق أهدافها الرقمية من خلال الاستراتيجيات المدفوعة بالبيانات والحلول المبتكرة.",
      "المهارات الأساسية",
      ["تحسين محركات البحث والتسويق", "استراتيجية المحتوى", "الذكاء الاصطناعي والتعلم الآلي", "تحليل البيانات", "تسويق وسائل التواصل الاجتماعي", "تحسين التحويلات"]),
    Services(
      "الخدمات",
      "كيف يمكنني مساعدة عملك على النمو",
      Entry("تحسين محركات البحث", "استراتيجيات شاملة لتحسين محركات البحث لتحسين تصنيفات البحث والزيارات العضوية."),
      Entry("استراتيجية المحتوى", "إنشاء محتوى واستراتيجية مدفوعة بالبيانات لإشراك جمهورك وزيادة التحويلات."),
      Entry("تكامل الذكاء الاصطناعي", "الاستفادة من الذكاء الاصطناعي لتحسين عمليات التسويق وتحسين العائد على الاستثمار."),
      Entry("تحليل البيانات", "رؤى عميقة في أداء التسويق الخاص بك مع توصيات قابلة للتنفيذ.")),
    Contact(
      "تواصل معي",
      "دعنا نناقش مشروعك",
      "الاسم",
      "البريد الإلكتروني",
      "الموضوع",
      "الرسالة",
      "إرسال الرسالة",
      "العنوان",
      "الهاتف",
      "البريد الإلكتروني"),
    Footer(
      "خبير التسويق الرقمي يساعد الشركات على النمو من خلال تحسين محركات البحث الاستراتيجي وتسويق المحتوى وتحسين الذكاء الاصطناعي.",
      "روابط سريعة",
      "الخدمات",
      "تابعني",
      "جميع الحقوق محفوظة."))

  const Portuguese: Table := Table(
    Nav(
      "Início",
      "Sobre",
      "Serviços",
      "Contato",
      "Blog"),
    Hero(
      "Olá, eu sou",
      "Especialista em Marketing Digital e IA",
      "Ajudo empresas a crescer através de marketing digital estratégico, otimização de SEO e soluções de IA de ponta.",
      "Entre em Contato",
      "Saiba Mais"),
    About(
      "Sobre Mim",
      "Apaixonado por transformação digital",
      "Com mais de 10 anos de experiência em marketing digital, me especializo em SEO, estratégia de conteúdo e otimização com IA. Baseado em João Pessoa, Brasil, ajudo empresas do mundo todo a alcançar seus objetivos digitais através de estratégias orientadas por dados e soluções inovadoras.",
      "Principais Habilidades",
      ["Otimização SEO e SEM", "Estratégia de Conteúdo", "IA e Machine Learning", "Análise de Dados", "Marketing em Redes Sociais", "Otimização de Conversões"]),
    Services(
      "Serviços",
      "Como posso ajudar seu negócio a crescer",
      Entry("Otimização de SEO", "Estratégias abrangentes de SEO para melhorar seus rankings de busca e tráfego orgânico."),
      Entry("Estratégia de Conteúdo", "Criação de conteúdo e estratégia baseada em dados para engajar sua audiência e gerar conversões."),
      Entry("Integração de IA", "Aproveitando a inteligência artificial para otimizar seus processos de marketing e melhorar o ROI."),
      Entry("Análise de Dados", "Insights profundos sobre seu desempenho de marketing com recomendações acionáveis.")),
    Contact(
      "Entre em Contato",
      "Vamos conversar sobre seu projeto",
      "Nome",
      "E-mail",
      "Assunto",
      "Mensagem",
      "Enviar Mensagem",
      "Endereço",
      "Telefone",
      "E-mail"),
    Footer(
      "Especialista em Marketing Digital ajudando empresas a crescer através de SEO estratégico, marketing de conteúdo e otimização com IA.",
      "Links Rápidos",
      "Serviços",
      "Me Siga",
      "Todos os direitos reservados."))

  /** The `translations` object, keyed by locale code. */
  const Locales: map<string, Table> :=
    map["en" := English, "es" := Spanish, "zh-cn" := Chinese, "ar" := Arabic, "pt" := Portuguese]

  /** `translations[lang] || translations.en`. */
  function GetTranslations(lang: string): (t: Table)
    ensures lang in Locales ==> t == Locales[lang]
    ensures lang !in Locales ==> t == English
  {
    if lang in Locales then Locales[lang] else English
  }

  /** The locale codes of the table are exactly the routing languages. */
  lemma LocalesAreTheLanguages()
    ensures Locales.Keys == set lang | lang in I18n.Languages
  {
    assert forall lang :: lang in I18n.Languages <==> lang in Locales;
  }

  /** Every language the router can produce has its own table, and any other code reads English. */
  lemma TranslationsForEveryLanguage(lang: string)
    ensures I18n.IsLanguage(lang) ==> GetTranslations(lang) == Locales[lang]
    ensures !I18n.IsLanguage(lang) ==> GetTranslations(lang) == English
  {
    LocalesAreTheLanguages();
    assert I18n.IsLanguage(lang) <==> lang in Locales.Keys;
  }

  /** Every locale lists exactly six skills. */
  lemma SixSkills(lang: string)
    ensures |GetTranslations(lang).about.skillsList| == 6
  {
  }

  /** The five locales are distinct tables (no locale is a copy of another). */
  lemma LocalesDiffer(a: string, b: string)
    requires a in Locales && b in Locales && a != b
    ensures Locales[a] != Locales[b]
  {
    assert Locales[a].nav.home != Locales[b].nav.home;
  }
}
